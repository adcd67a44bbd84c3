/** The whole session: sender workers, network, receiver workers and both control loops.

    The data plane runs underneath. Above it, the sender's directory walk numbers files and
    hands them to the main loop, which announces them in order, reports completed files with
    their block counts, enters completed hashes in its ledger and settles the receiver's
    confirmations. The receiver merges names and counts, opens files in the order they were
    named, closes them in the order their counts arrived, and confirms what it closed. The two
    control channels are FIFO queues of entries; messages that carry several entries are taken
    apart, since nothing depends on how entries are batched.

    `total`, `confirmed`, `named` and `counted` are history.
 */
module Session {
  import opened Blocks
  import D = DataPlane
  import Share = SenderShare
  import L = Ledger
  import R = ReceiverControl
  import W = StateWord

  /** The sender's walk: numbers drawn, names in the channel, names pending, numbers announced. */
  datatype Walk = Walk(drawn: nat, msgs: set<nat>, vec: set<nat>, sent: nat, filesTotal: nat, over: bool,
                       total: set<nat>)

  /** The sender's ledger; `entered` completions have been entered so far. */
  datatype Desk = Desk(book: L.Book, entered: nat, filesOk: nat, confirmed: set<nat>)

  datatype Opening = Opening(addQ: seq<nat>, countIn: nat, named: set<nat>)

  datatype Closing = Closing(closeQ: seq<nat>, countOut: nat, counted: set<nat>)

  /** Entries travelling from the sender to the receiver. */
  datatype Item = Spec(m: R.Message) | SessionComplete

  datatype State = State(p: D.Plane,
                         walk: Walk, desk: Desk, reported: set<nat>, complete: bool, failed: bool,
                         opening: Opening, closing: Closing, info: R.Files, doneQ: seq<L.Confirmed>,
                         bye: bool, finished: bool,
                         toRx: seq<Item>, toTx: seq<L.Confirmed>)

  datatype Action =
    | Data(a: D.Step)       // any step of a sender worker, the network or a receive worker
    | Draw                  // the next file number is drawn
    | Enumerate(f: nat)     // file_addfile, then the name goes into the channel
    | Receive(f: nat)       // the main loop takes a name from the channel
    | Announce              // the next number in line is announced
    | WalkOver              // all walkers have exited and the channel is drained
    | Report(j: nat)        // send_file_complete passes on a completion
    | Enter                 // the ledger takes a completed hash
    | Confirm               // the ledger settles a confirmation
    | Complete              // every file is confirmed: session_complete is sent
    | RxItem                // the receiver handles the next control entry
    | RxOpen                // add_file
    | RxClose               // close_file
    | RxSend                // send_file_completions
    | RxFinish              // the receiver's termination test passes

  function NameItem(c: Config, names: nat -> string, f: nat): Item {
    Spec(R.Name(f, names(f), |c.src(f)|, 0))
  }

  function CountItem(c: Config, f: nat): Item {
    Spec(R.Count(f, BlockCount(c, f), 0))
  }

  /** The confirmation of a file that arrived whole. */
  function Receipt(c: Config, f: nat): L.Confirmed {
    L.Confirmed(f, Num(CrcAll(c, f)))
  }

  function Start(n: nat, m: nat): State {
    State(D.Start(n, m), Walk(0, {}, {}, 0, 0, false, {}), Desk(map[], 0, 0, {}), {}, false, false,
          Opening([], 0, {}), Closing([], 0, {}), map[], [], false, false, [], [])
  }

  /** Steps the control loops do not take part in. */
  predicate Background(a: D.Step) {
    match a
    case Tx(t) => !t.Add?
    case Open(_) => false
    case Close(_, _, _) => false
    case _ => true
  }

  predicate CanConfirm(s: State) {
    s.toTx != [] && (s.toTx[0] == L.Confirmed(0, 0) || L.Ready(s.desk.book, s.toTx[0].fino))
  }

  predicate CanOpen(s: State) {
    s.opening.addQ != [] && s.opening.addQ[0] > 0 && s.opening.addQ[0] !in s.p.rx.ever
  }

  predicate CanClose(s: State) {
    && s.closing.closeQ != []
    && var f := s.closing.closeQ[0];
       && f in s.p.rx.table && f in s.info && s.info[f].blocks >= 0 && s.info[f].sz >= 0
       && s.p.rx.table[f].blockTotal >= s.info[f].blocks
  }

  predicate Can(c: Config, s: State, a: Action) {
    match a
    case Data(d) => Background(d) && D.Can(c, s.p, d)
    case Draw => !s.walk.over
    case Enumerate(f) => 1 <= f <= s.walk.drawn && f !in s.p.tx.added
    case Receive(f) => f in s.walk.msgs
    case Announce => s.walk.sent + 1 in s.walk.vec
    case WalkOver => s.walk.msgs == {} && s.p.tx.added == Range(s.walk.drawn) && s.walk.sent + 1 !in s.walk.vec
    case Report(j) => j < |s.p.tx.done| && s.p.tx.done[j].file !in s.reported
    case Enter => s.desk.entered < |s.p.tx.done|
    case Confirm => CanConfirm(s)
    case Complete => s.walk.over && s.desk.filesOk >= s.walk.filesTotal && !s.complete
    case RxItem => s.toRx != []
    case RxOpen => CanOpen(s)
    case RxClose => CanClose(s)
    case RxSend => s.doneQ != []
    case RxFinish => s.bye && s.opening.countIn == s.closing.countOut
  }

  function DoEnumerate(c: Config, s: State, f: nat): State
    requires f > 0 && f !in s.p.tx.added
  {
    s.(p := D.DoTx(c, s.p, Share.Add(f)), walk := s.walk.(msgs := s.walk.msgs + {f}))
  }

  function DoReceive(names: nat -> string, s: State, f: nat): State {
    s.(walk := s.walk.(msgs := s.walk.msgs - {f}, vec := s.walk.vec + {f}, total := s.walk.total + {f},
                       filesTotal := s.walk.filesTotal + 1),
       desk := s.desk.(book := L.Announce(s.desk.book, f, names(f))))
  }

  function DoAnnounce(c: Config, names: nat -> string, s: State): State {
    var f := s.walk.sent + 1;
    s.(walk := s.walk.(vec := s.walk.vec - {f}, sent := f), toRx := s.toRx + [NameItem(c, names, f)])
  }

  function DoReport(s: State, j: nat): State
    requires j < |s.p.tx.done|
  {
    var d := s.p.tx.done[j];
    s.(reported := s.reported + {d.file}, toRx := s.toRx + [Spec(R.Count(d.file, d.blocks, 0))])
  }

  function DoEnter(s: State): State
    requires s.desk.entered < |s.p.tx.done|
  {
    var d := s.p.tx.done[s.desk.entered];
    s.(desk := s.desk.(entered := s.desk.entered + 1, book := L.Enter(s.desk.book, L.Completed(d.file, Num(d.crc)))))
  }

  function DoConfirm(s: State): State
    requires CanConfirm(s)
  {
    var e := s.toTx[0];
    if e == L.Confirmed(0, 0) then s.(desk := s.desk.(filesOk := s.desk.filesOk + 1), toTx := s.toTx[1..])
    else if s.desk.book[e.fino].crc != e.crc then s.(failed := true)
    else s.(desk := s.desk.(filesOk := s.desk.filesOk + 1, book := s.desk.book - {e.fino},
                            confirmed := s.desk.confirmed + {e.fino}),
            toTx := s.toTx[1..])
  }

  function DoComplete(s: State): State {
    s.(complete := true, toRx := s.toRx + [SessionComplete])
  }

  function DoRxItem(s: State): State
    requires s.toRx != []
  {
    var q := s.toRx[1..];
    match s.toRx[0]
    case SessionComplete => s.(toRx := q, bye := true)
    case Spec(m) =>
      var h, f := R.Merge(s.info, m), m.fino;
      if m.Name? then
        s.(toRx := q, info := h,
           opening := s.opening.(addQ := s.opening.addQ + [f], named := s.opening.named + {f}))
      else
        s.(toRx := q, info := h,
           closing := s.closing.(closeQ := s.closing.closeQ + [f], counted := s.closing.counted + {f}))
  }

  function DoRxOpen(c: Config, s: State): State
    requires s.opening.addQ != []
  {
    s.(p := s.p.(rx := D.DoOpen(c, s.p.rx, s.opening.addQ[0])),
       opening := s.opening.(addQ := s.opening.addQ[1..], countIn := s.opening.countIn + 1))
  }

  function DoRxClose(c: Config, s: State): State
    requires CanClose(s)
  {
    var f := s.closing.closeQ[0];
    s.(p := s.p.(rx := D.DoClose(c, s.p.rx, f, s.info[f].sz)),
       closing := s.closing.(closeQ := s.closing.closeQ[1..], countOut := s.closing.countOut + 1),
       info := s.info - {f},
       doneQ := s.doneQ + [L.Confirmed(s.info[f].fino, Num(s.p.rx.table[f].crc))])
  }

  function DoRxSend(s: State): State
    requires s.doneQ != []
  {
    var n := |s.doneQ| - 1;
    s.(doneQ := s.doneQ[..n], toTx := s.toTx + [s.doneQ[n]])
  }

  function Do(c: Config, names: nat -> string, sparse: bool, s: State, a: Action): State
    requires Can(c, s, a)
  {
    match a
    case Data(d) => s.(p := D.Do(c, sparse, s.p, d))
    case Draw => s.(walk := s.walk.(drawn := s.walk.drawn + 1))
    case Enumerate(f) => DoEnumerate(c, s, f)
    case Receive(f) => DoReceive(names, s, f)
    case Announce => DoAnnounce(c, names, s)
    case WalkOver => s.(walk := s.walk.(over := true))
    case Report(j) => DoReport(s, j)
    case Enter => DoEnter(s)
    case Confirm => DoConfirm(s)
    case Complete => DoComplete(s)
    case RxItem => DoRxItem(s)
    case RxOpen => DoRxOpen(c, s)
    case RxClose => DoRxClose(c, s)
    case RxSend => DoRxSend(s)
    case RxFinish => s.(finished := true)
  }

  // ---- Invariant ----

  ghost predicate NoRepeat<T(!new)>(q: seq<T>) {
    forall i, j | 0 <= i < j < |q| :: q[i] != q[j]
  }

  /** Files on their way from the walk to the announcements. */
  ghost predicate WalkOk(w: Walk, added: set<nat>) {
    && w.msgs <= added && w.total == added - w.msgs && w.vec <= w.total
    && |w.total| == w.filesTotal
    && (forall f: nat :: f in w.total && f !in w.vec <==> 1 <= f <= w.sent)
    && added <= Range(w.drawn)
    && (w.over ==> w.msgs == {} && w.vec == {} && added == Range(w.drawn))
  }

  /** Every control entry under way is the one right entry for its file, and there only once. */
  ghost predicate QueueOk(c: Config, names: nat -> string, q: seq<Item>, complete: bool) {
    && NoRepeat(q)
    && (forall i | 0 <= i < |q| :: ItemOk(c, names, q[i]))
    && (SessionComplete in q ==> complete)
  }

  predicate ItemOk(c: Config, names: nat -> string, x: Item) {
    x.Spec? ==> x == if x.m.Name? then NameItem(c, names, x.m.fino) else CountItem(c, x.m.fino)
  }

  /** Announced files: name under way or received. */
  ghost predicate NamesOk(c: Config, names: nat -> string, q: seq<Item>, sent: nat, named: set<nat>) {
    && (forall f: nat :: NameItem(c, names, f) in q <==> 1 <= f <= sent && f !in named)
    && named <= Range(sent)
  }

  /** Reported files: count under way or received. */
  ghost predicate CountsOk(c: Config, q: seq<Item>, reported: set<nat>, counted: set<nat>) {
    && (forall f: nat :: CountItem(c, f) in q <==> f in reported && f !in counted)
    && counted <= reported
  }

  function DoneFiles(done: seq<Share.Done>, n: nat): set<nat>
    requires n <= |done|
  {
    set i | 0 <= i < n :: done[i].file
  }

  ghost predicate OpeningOk(o: Opening, ever: set<nat>) {
    && NoRepeat(o.addQ)
    && (forall f: nat :: f in o.addQ <==> f in o.named && f !in ever)
    && ever <= o.named
    && o.countIn == |ever|
  }

  ghost predicate ClosingOk(k: Closing, closed: set<nat>) {
    && NoRepeat(k.closeQ)
    && (forall f: nat :: f in k.closeQ <==> f in k.counted && f !in closed)
    && closed <= k.counted
    && k.countOut == |closed|
  }

  /** What the merged record of a file must be, however its messages interleaved. */
  function Expected(c: Config, names: nat -> string, f: nat, named: bool, counted: bool): R.Info {
    R.Info(if named then names(f) else "", if named then f else 0, if named then |c.src(f)| else 0,
           if counted then BlockCount(c, f) else -1, 0, 0, 0)
  }

  ghost predicate InfoOk(c: Config, names: nat -> string, h: R.Files, named: set<nat>, counted: set<nat>,
                         closed: set<nat>) {
    && h.Keys == (named + counted) - closed
    && (forall f | f in h :: h[f] == Expected(c, names, f, f in named, f in counted))
  }

  /** Closed files: confirmation queued, travelling, or settled. */
  ghost predicate ReceiptsOk(c: Config, doneQ: seq<L.Confirmed>, toTx: seq<L.Confirmed>,
                             confirmed: set<nat>, closed: set<nat>) {
    && NoRepeat(doneQ) && NoRepeat(toTx)
    && (forall x | x in doneQ :: x !in toTx)
    && (forall i | 0 <= i < |doneQ| :: doneQ[i] == Receipt(c, doneQ[i].fino))
    && (forall i | 0 <= i < |toTx| :: toTx[i] == Receipt(c, toTx[i].fino))
    && (forall f: nat :: Receipt(c, f) in doneQ || Receipt(c, f) in toTx <==> f in closed && f !in confirmed)
    && confirmed <= closed
  }

  /** The ledger: announced or completed files that are not confirmed yet, with the completed
      files' hashes and the pending mark for the rest. */
  ghost predicate DeskOk(c: Config, k: Desk, total: set<nat>, done: seq<Share.Done>) {
    && k.entered <= |done|
    && k.book.Keys == (total + DoneFiles(done, k.entered)) - k.confirmed
    && (forall f | f in k.book ::
          k.book[f].crc == if f in DoneFiles(done, k.entered) then Num(CrcAll(c, f)) else L.PENDING)
    && k.confirmed <= total * DoneFiles(done, k.entered)
    && |k.confirmed| == k.filesOk
  }

  ghost predicate ReportedOk(reported: set<nat>, done: seq<Share.Done>) {
    reported <= DoneFiles(done, |done|)
  }

  ghost predicate EndOk(s: State) {
    && !s.failed
    && (s.complete ==> s.walk.over && s.desk.confirmed == s.walk.total)
    && (s.bye ==> s.complete)
    && (s.finished ==> s.bye)
    && s.p.rx.closed.Keys <= s.p.rx.ever
  }

  ghost predicate ControlOk(c: Config, names: nat -> string, s: State) {
    && WalkOk(s.walk, s.p.tx.added)
    && QueueOk(c, names, s.toRx, s.complete)
    && NamesOk(c, names, s.toRx, s.walk.sent, s.opening.named)
    && CountsOk(c, s.toRx, s.reported, s.closing.counted)
    && OpeningOk(s.opening, s.p.rx.ever)
    && ClosingOk(s.closing, s.p.rx.closed.Keys)
    && InfoOk(c, names, s.info, s.opening.named, s.closing.counted, s.p.rx.closed.Keys)
    && ReceiptsOk(c, s.doneQ, s.toTx, s.desk.confirmed, s.p.rx.closed.Keys)
    && DeskOk(c, s.desk, s.walk.total, s.p.tx.done)
    && ReportedOk(s.reported, s.p.tx.done)
    && EndOk(s)
  }

  ghost predicate Inv(c: Config, names: nat -> string, s: State) {
    D.Inv(c, s.p) && ControlOk(c, names, s)
  }

  // ---- How each action moves one part of the invariant ----

  lemma WalkDraws(w: Walk, added: set<nat>)
    requires WalkOk(w, added) && !w.over
    ensures WalkOk(w.(drawn := w.drawn + 1), added)
  {
  }

  lemma WalkEnumerates(w: Walk, added: set<nat>, f: nat)
    requires WalkOk(w, added) && 1 <= f <= w.drawn && f !in added
    ensures WalkOk(w.(msgs := w.msgs + {f}), added + {f})
  {
  }

  lemma WalkReceives(w: Walk, added: set<nat>, f: nat)
    requires WalkOk(w, added) && f in w.msgs
    ensures f !in w.total
    ensures WalkOk(w.(msgs := w.msgs - {f}, vec := w.vec + {f}, total := w.total + {f},
                      filesTotal := w.filesTotal + 1), added)
  {
  }

  /** Once the walk is over there is nothing left to enumerate or to receive. */
  lemma WalkOpen(w: Walk, added: set<nat>, f: nat)
    requires WalkOk(w, added) && (f in w.msgs || (1 <= f <= w.drawn && f !in added))
    ensures !w.over
  {
  }

  lemma WalkAnnounces(w: Walk, added: set<nat>)
    requires WalkOk(w, added) && w.sent + 1 in w.vec
    ensures WalkOk(w.(vec := w.vec - {w.sent + 1}, sent := w.sent + 1), added)
  {
  }

  /** When all numbers drawn have come through and the next one is not pending, none is. */
  lemma WalkEnds(w: Walk, added: set<nat>)
    requires WalkOk(w, added) && w.msgs == {} && added == Range(w.drawn) && w.sent + 1 !in w.vec
    ensures WalkOk(w.(over := true), added)
  {
    assert forall f | f in w.vec :: w.sent + 1 < f <= w.drawn;
    assert w.sent + 1 <= w.drawn ==> w.sent + 1 in w.total;
  }

  lemma Appended<T(!new)>(q: seq<T>, x: T)
    ensures forall y :: y in q + [x] <==> y in q || y == x
    ensures NoRepeat(q) && x !in q ==> NoRepeat(q + [x])
  {
  }

  lemma Popped<T(!new)>(q: seq<T>)
    requires NoRepeat(q) && q != []
    ensures forall y :: y in q <==> y in q[1..] || y == q[0]
    ensures NoRepeat(q[1..]) && q[0] !in q[1..]
  {
    assert forall i | 0 <= i < |q[1..]| :: q[1..][i] == q[i + 1];
  }

  /** A name, a count or the final message joins the queue. */
  lemma QueueGrows(c: Config, names: nat -> string, q: seq<Item>, x: Item, complete: bool)
    requires QueueOk(c, names, q, complete) && ItemOk(c, names, x) && x !in q
    ensures QueueOk(c, names, q + [x], complete || x == SessionComplete)
  {
    Appended(q, x);
  }

  lemma NamesGrow(c: Config, names: nat -> string, q: seq<Item>, x: Item, sent: nat, named: set<nat>)
    requires NamesOk(c, names, q, sent, named)
    ensures NameItem(c, names, sent + 1) !in q
    ensures x == NameItem(c, names, sent + 1) ==> NamesOk(c, names, q + [x], sent + 1, named)
    ensures x.SessionComplete? || x.m.Count? ==> NamesOk(c, names, q + [x], sent, named)
  {
    Appended(q, x);
  }

  lemma CountsGrow(c: Config, q: seq<Item>, x: Item, reported: set<nat>, counted: set<nat>, f: nat)
    requires CountsOk(c, q, reported, counted) && f !in reported
    ensures CountItem(c, f) !in q
    ensures x == CountItem(c, f) ==> CountsOk(c, q + [x], reported + {f}, counted)
  {
    Appended(q, x);
  }

  lemma CountsSame(c: Config, q: seq<Item>, x: Item, reported: set<nat>, counted: set<nat>)
    requires CountsOk(c, q, reported, counted) && (x.SessionComplete? || x.m.Name?)
    ensures CountsOk(c, q + [x], reported, counted)
  {
    Appended(q, x);
  }

  lemma QueueShrinks(c: Config, names: nat -> string, q: seq<Item>, complete: bool)
    requires QueueOk(c, names, q, complete) && q != []
    ensures QueueOk(c, names, q[1..], complete) && ItemOk(c, names, q[0])
    ensures q[0].SessionComplete? ==> complete
  {
    Popped(q);
    assert q[0] in q;
  }

  lemma NamesShrink(c: Config, names: nat -> string, q: seq<Item>, sent: nat, named: set<nat>)
    requires NamesOk(c, names, q, sent, named) && NoRepeat(q) && q != [] && ItemOk(c, names, q[0])
    ensures q[0].Spec? && q[0].m.Name? ==>
              && 1 <= q[0].m.fino <= sent && q[0].m.fino !in named
              && NamesOk(c, names, q[1..], sent, named + {q[0].m.fino})
    ensures q[0].SessionComplete? || q[0].m.Count? ==> NamesOk(c, names, q[1..], sent, named)
  {
    Popped(q);
    assert q[0] in q;
  }

  lemma CountsShrink(c: Config, names: nat -> string, q: seq<Item>, reported: set<nat>, counted: set<nat>)
    requires CountsOk(c, q, reported, counted) && NoRepeat(q) && q != [] && ItemOk(c, names, q[0])
    ensures q[0].Spec? && q[0].m.Count? ==>
              && q[0].m.fino !in counted && CountsOk(c, q[1..], reported, counted + {q[0].m.fino})
    ensures q[0].SessionComplete? || q[0].m.Name? ==> CountsOk(c, q[1..], reported, counted)
  {
    Popped(q);
    assert q[0] in q;
  }

  lemma DeskReceives(c: Config, k: Desk, total: set<nat>, done: seq<Share.Done>, f: nat, name: string)
    requires DeskOk(c, k, total, done) && f !in total
    ensures DeskOk(c, k.(book := L.Announce(k.book, f, name)), total + {f}, done)
  {
  }

  lemma DeskEnters(c: Config, k: Desk, total: set<nat>, done: seq<Share.Done>)
    requires DeskOk(c, k, total, done) && k.entered < |done|
    requires done[k.entered] == Share.Exact(c, done[k.entered].file)
    requires forall i | 0 <= i < k.entered :: done[i].file != done[k.entered].file
    ensures DeskOk(c, k.(entered := k.entered + 1,
                         book := L.Enter(k.book, L.Completed(done[k.entered].file, Num(done[k.entered].crc)))),
                   total, done)
  {
    assert DoneFiles(done, k.entered + 1) == DoneFiles(done, k.entered) + {done[k.entered].file};
  }

  lemma DeskConfirms(c: Config, k: Desk, total: set<nat>, done: seq<Share.Done>, f: nat)
    requires DeskOk(c, k, total, done) && L.Ready(k.book, f) && f in total
    ensures k.book[f].crc == Num(CrcAll(c, f))
    ensures DeskOk(c, k.(filesOk := k.filesOk + 1, book := k.book - {f}, confirmed := k.confirmed + {f}), total, done)
  {
  }

  lemma DoneGrows(c: Config, k: Desk, total: set<nat>, reported: set<nat>, done: seq<Share.Done>,
                  done': seq<Share.Done>)
    requires DeskOk(c, k, total, done) && ReportedOk(reported, done) && done <= done'
    ensures DeskOk(c, k, total, done') && ReportedOk(reported, done')
  {
    assert DoneFiles(done', k.entered) == DoneFiles(done, k.entered);
    assert DoneFiles(done, |done|) <= DoneFiles(done', |done'|);
  }

  lemma OpeningPushes(o: Opening, ever: set<nat>, f: nat)
    requires OpeningOk(o, ever) && f !in o.named
    ensures OpeningOk(o.(addQ := o.addQ + [f], named := o.named + {f}), ever)
  {
    Appended(o.addQ, f);
  }

  lemma OpeningPops(o: Opening, ever: set<nat>)
    requires OpeningOk(o, ever) && o.addQ != []
    ensures o.addQ[0] in o.named && o.addQ[0] !in ever
    ensures OpeningOk(o.(addQ := o.addQ[1..], countIn := o.countIn + 1), ever + {o.addQ[0]})
  {
    Popped(o.addQ);
    assert o.addQ[0] in o.addQ;
  }

  lemma ClosingPushes(k: Closing, closed: set<nat>, f: nat)
    requires ClosingOk(k, closed) && f !in k.counted
    ensures ClosingOk(k.(closeQ := k.closeQ + [f], counted := k.counted + {f}), closed) && f !in closed
  {
    Appended(k.closeQ, f);
  }

  lemma ClosingPops(k: Closing, closed: set<nat>)
    requires ClosingOk(k, closed) && k.closeQ != []
    ensures k.closeQ[0] in k.counted && k.closeQ[0] !in closed
    ensures ClosingOk(k.(closeQ := k.closeQ[1..], countOut := k.countOut + 1), closed + {k.closeQ[0]})
  {
    Popped(k.closeQ);
    assert k.closeQ[0] in k.closeQ;
  }

  lemma InfoNames(c: Config, names: nat -> string, h: R.Files, named: set<nat>, counted: set<nat>, closed: set<nat>,
                  f: nat)
    requires InfoOk(c, names, h, named, counted, closed) && f !in named && f !in closed
    ensures InfoOk(c, names, R.Merge(h, NameItem(c, names, f).m), named + {f}, counted, closed)
  {
  }

  lemma InfoCounts(c: Config, names: nat -> string, h: R.Files, named: set<nat>, counted: set<nat>,
                   closed: set<nat>, f: nat)
    requires InfoOk(c, names, h, named, counted, closed) && f !in counted && f !in closed
    ensures InfoOk(c, names, R.Merge(h, CountItem(c, f).m), named, counted + {f}, closed)
  {
  }

  /** Once named and counted, a file's record holds the source's size and block count. */
  lemma InfoReady(c: Config, names: nat -> string, h: R.Files, named: set<nat>, counted: set<nat>, closed: set<nat>,
                  f: nat)
    requires InfoOk(c, names, h, named, counted, closed) && f in named && f in counted && f !in closed
    ensures f in h && h[f].fino == f && h[f].blocks == BlockCount(c, f) && h[f].sz == |c.src(f)|
    ensures InfoOk(c, names, h - {f}, named, counted, closed + {f})
  {
  }

  lemma ReceiptQueued(c: Config, doneQ: seq<L.Confirmed>, toTx: seq<L.Confirmed>, confirmed: set<nat>,
                      closed: set<nat>, f: nat)
    requires ReceiptsOk(c, doneQ, toTx, confirmed, closed) && f !in closed
    ensures ReceiptsOk(c, doneQ + [Receipt(c, f)], toTx, confirmed, closed + {f})
  {
    Appended(doneQ, Receipt(c, f));
    assert Receipt(c, f) !in doneQ && Receipt(c, f) !in toTx;
  }

  lemma ReceiptTravels(c: Config, doneQ: seq<L.Confirmed>, toTx: seq<L.Confirmed>, confirmed: set<nat>,
                       closed: set<nat>)
    requires ReceiptsOk(c, doneQ, toTx, confirmed, closed) && doneQ != []
    ensures ReceiptsOk(c, doneQ[..|doneQ| - 1], toTx + [doneQ[|doneQ| - 1]], confirmed, closed)
  {
    var n := |doneQ| - 1;
    var x, d := doneQ[n], doneQ[..n];
    assert doneQ == d + [x];
    Appended(d, x);
    Appended(toTx, x);
    assert x in doneQ && x !in d;
  }

  lemma ReceiptSettles(c: Config, doneQ: seq<L.Confirmed>, toTx: seq<L.Confirmed>, confirmed: set<nat>,
                       closed: set<nat>)
    requires ReceiptsOk(c, doneQ, toTx, confirmed, closed) && toTx != []
    ensures toTx[0] == Receipt(c, toTx[0].fino) && toTx[0].fino in closed
    ensures ReceiptsOk(c, doneQ, toTx[1..], confirmed + {toTx[0].fino}, closed)
  {
    Popped(toTx);
    assert toTx[0] in toTx;
  }

  // ---- Every action keeps the control invariant ----

  lemma TxFrame(c: Config, s: Share.State, t: Share.Action)
    requires Share.Enabled(c, s, t) && !t.Add?
    ensures Share.Apply(c, s, t).added == s.added && s.done <= Share.Apply(c, s, t).done
  {
  }

  lemma RxFrame(c: Config, sparse: bool, r: D.Rx, w: nat)
    ensures D.CanLookup(r, w) ==> SameFiles(r, D.DoLookup(c, r, w))
    ensures D.HasJob(r, w, 1) ==> SameFiles(r, D.DoRxFold(c, r, w))
    ensures D.HasJob(r, w, 2) ==> SameFiles(r, D.DoWrite(c, sparse, r, w))
    ensures D.HasJob(r, w, 3) ==> SameFiles(r, D.DoRxSize(c, r, w))
    ensures D.HasJob(r, w, 4) ==> SameFiles(r, D.DoRxTick(c, r, w))
  {
    hide D.SlotOf, D.DiskOf, D.Raised;
  }

  predicate SameFiles(r: D.Rx, r': D.Rx) {
    r'.ever == r.ever && r'.closed == r.closed
  }

  /** Background steps open, close and number no file, and only add completions. */
  lemma BackgroundFrame(c: Config, sparse: bool, p: D.Plane, d: D.Step)
    requires Background(d) && D.Can(c, p, d)
    ensures var p' := D.Do(c, sparse, p, d);
            p'.tx.added == p.tx.added && p.tx.done <= p'.tx.done && SameFiles(p.rx, p'.rx)
  {
    hide D.DoLookup, D.DoRxFold, D.DoWrite, D.DoRxSize, D.DoRxTick;
    match d
    case Tx(t) => TxFrame(c, p.tx, t);
    case Take(w, k, pad) =>
    case Lookup(w) => RxFrame(c, sparse, p.rx, w);
    case RxFold(w) => RxFrame(c, sparse, p.rx, w);
    case Write(w) => RxFrame(c, sparse, p.rx, w);
    case RxSize(w) => RxFrame(c, sparse, p.rx, w);
    case RxTick(w) => RxFrame(c, sparse, p.rx, w);
  }

  lemma DataControl(c: Config, names: nat -> string, s: State, p: D.Plane)
    requires ControlOk(c, names, s)
    requires p.tx.added == s.p.tx.added && s.p.tx.done <= p.tx.done && SameFiles(s.p.rx, p.rx)
    ensures ControlOk(c, names, s.(p := p))
  {
    hide WalkOk, QueueOk, NamesOk, CountsOk, OpeningOk, ClosingOk, InfoOk, ReceiptsOk, DeskOk, ReportedOk;
    DoneGrows(c, s.desk, s.walk.total, s.reported, s.p.tx.done, p.tx.done);
  }

  lemma EnumerateControl(c: Config, names: nat -> string, s: State, p: D.Plane, f: nat)
    requires 1 <= f <= s.walk.drawn && f !in s.p.tx.added && ControlOk(c, names, s)
    requires p.tx.added == s.p.tx.added + {f} && p.tx.done == s.p.tx.done && p.rx == s.p.rx
    ensures ControlOk(c, names, s.(p := p, walk := s.walk.(msgs := s.walk.msgs + {f})))
  {
    hide WalkOk, QueueOk, NamesOk, CountsOk, OpeningOk, ClosingOk, InfoOk, ReceiptsOk, DeskOk, ReportedOk;
    WalkEnumerates(s.walk, s.p.tx.added, f);
    WalkOpen(s.walk, s.p.tx.added, f);
  }

  lemma ReceiveControl(c: Config, names: nat -> string, s: State, f: nat)
    requires f in s.walk.msgs && ControlOk(c, names, s)
    ensures ControlOk(c, names, DoReceive(names, s, f))
  {
    hide WalkOk, QueueOk, NamesOk, CountsOk, OpeningOk, ClosingOk, InfoOk, ReceiptsOk, DeskOk, ReportedOk;
    WalkOpen(s.walk, s.p.tx.added, f);
    WalkReceives(s.walk, s.p.tx.added, f);
    DeskReceives(c, s.desk, s.walk.total, s.p.tx.done, f, names(f));
  }

  lemma AnnounceControl(c: Config, names: nat -> string, s: State)
    requires s.walk.sent + 1 in s.walk.vec && ControlOk(c, names, s)
    ensures ControlOk(c, names, DoAnnounce(c, names, s))
  {
    hide WalkOk, QueueOk, NamesOk, CountsOk, OpeningOk, ClosingOk, InfoOk, ReceiptsOk, DeskOk, ReportedOk;
    var x := NameItem(c, names, s.walk.sent + 1);
    WalkAnnounces(s.walk, s.p.tx.added);
    NamesGrow(c, names, s.toRx, x, s.walk.sent, s.opening.named);
    QueueGrows(c, names, s.toRx, x, s.complete);
    CountsSame(c, s.toRx, x, s.reported, s.closing.counted);
  }

  lemma WalkOverControl(c: Config, names: nat -> string, s: State)
    requires s.walk.msgs == {} && s.p.tx.added == Range(s.walk.drawn) && s.walk.sent + 1 !in s.walk.vec
    requires ControlOk(c, names, s)
    ensures ControlOk(c, names, s.(walk := s.walk.(over := true)))
  {
    hide WalkOk, QueueOk, NamesOk, CountsOk, OpeningOk, ClosingOk, InfoOk, ReceiptsOk, DeskOk, ReportedOk;
    WalkEnds(s.walk, s.p.tx.added);
  }

  lemma DrawControl(c: Config, names: nat -> string, s: State)
    requires !s.walk.over && ControlOk(c, names, s)
    ensures ControlOk(c, names, s.(walk := s.walk.(drawn := s.walk.drawn + 1)))
  {
    hide WalkOk, QueueOk, NamesOk, CountsOk, OpeningOk, ClosingOk, InfoOk, ReceiptsOk, DeskOk, ReportedOk;
    WalkDraws(s.walk, s.p.tx.added);
  }

  lemma ReportedGrows(reported: set<nat>, done: seq<Share.Done>, j: nat)
    requires ReportedOk(reported, done) && j < |done|
    ensures ReportedOk(reported + {done[j].file}, done)
  {
  }

  lemma ReportControl(c: Config, names: nat -> string, s: State, j: nat)
    requires j < |s.p.tx.done| && s.p.tx.done[j].file !in s.reported
    requires s.p.tx.done[j] == Share.Exact(c, s.p.tx.done[j].file)
    requires ControlOk(c, names, s)
    ensures ControlOk(c, names, DoReport(s, j))
  {
    hide WalkOk, QueueOk, NamesOk, CountsOk, OpeningOk, ClosingOk, InfoOk, ReceiptsOk, DeskOk, ReportedOk;
    var f := s.p.tx.done[j].file;
    var x := CountItem(c, f);
    CountsGrow(c, s.toRx, x, s.reported, s.closing.counted, f);
    QueueGrows(c, names, s.toRx, x, s.complete);
    NamesGrow(c, names, s.toRx, x, s.walk.sent, s.opening.named);
    ReportedGrows(s.reported, s.p.tx.done, j);
  }

  lemma EnterControl(c: Config, names: nat -> string, s: State)
    requires s.desk.entered < |s.p.tx.done|
    requires s.p.tx.done[s.desk.entered] == Share.Exact(c, s.p.tx.done[s.desk.entered].file)
    requires forall i | 0 <= i < s.desk.entered :: s.p.tx.done[i].file != s.p.tx.done[s.desk.entered].file
    requires ControlOk(c, names, s)
    ensures ControlOk(c, names, DoEnter(s))
  {
    hide WalkOk, QueueOk, NamesOk, CountsOk, OpeningOk, ClosingOk, InfoOk, ReceiptsOk, DeskOk, ReportedOk;
    DeskEnters(c, s.desk, s.walk.total, s.p.tx.done);
  }

  /** A file the receiver has opened was announced, so the ledger knows it. */
  lemma OpenedWasAnnounced(c: Config, names: nat -> string, s: State, f: nat)
    requires WalkOk(s.walk, s.p.tx.added) && NamesOk(c, names, s.toRx, s.walk.sent, s.opening.named)
    requires OpeningOk(s.opening, s.p.rx.ever) && f in s.p.rx.ever
    ensures f in s.walk.total && f > 0
  {
  }

  /** Whatever confirmation comes back carries the hash the sender computed. */
  lemma ConfirmAgrees(c: Config, names: nat -> string, s: State)
    requires CanConfirm(s) && ControlOk(c, names, s)
    ensures var e := s.toTx[0];
            && e.fino > 0 && e.fino in s.walk.total && e.fino in s.p.rx.closed
            && L.Ready(s.desk.book, e.fino) && s.desk.book[e.fino].crc == e.crc
  {
    hide WalkOk, QueueOk, NamesOk, CountsOk, OpeningOk, ClosingOk, InfoOk, ReceiptsOk, DeskOk, ReportedOk;
    ReceiptSettles(c, s.doneQ, s.toTx, s.desk.confirmed, s.p.rx.closed.Keys);
    OpenedWasAnnounced(c, names, s, s.toTx[0].fino);
    DeskConfirms(c, s.desk, s.walk.total, s.p.tx.done, s.toTx[0].fino);
  }

  lemma ConfirmControl(c: Config, names: nat -> string, s: State)
    requires CanConfirm(s) && ControlOk(c, names, s)
    ensures ControlOk(c, names, DoConfirm(s))
  {
    hide WalkOk, QueueOk, NamesOk, CountsOk, OpeningOk, ClosingOk, InfoOk, ReceiptsOk, DeskOk, ReportedOk;
    ConfirmAgrees(c, names, s);
    ReceiptSettles(c, s.doneQ, s.toTx, s.desk.confirmed, s.p.rx.closed.Keys);
    DeskConfirms(c, s.desk, s.walk.total, s.p.tx.done, s.toTx[0].fino);
    StillAll(c, s);
  }

  /** Nothing is left to confirm once everything has been confirmed. */
  lemma StillAll(c: Config, s: State)
    requires s.toTx != [] && L.Ready(s.desk.book, s.toTx[0].fino) && DeskOk(c, s.desk, s.walk.total, s.p.tx.done)
    requires s.toTx[0].fino in s.walk.total && EndOk(s)
    ensures !s.complete
  {
  }

  lemma SubsetOfSameSize(a: set<nat>, b: set<nat>)
    requires a <= b && |a| >= |b|
    ensures a == b
  {
    if x :| x in b && x !in a {
      SubsetSmaller(a, b - {x});
    }
  }

  lemma SubsetSmaller(a: set<nat>, b: set<nat>)
    requires a <= b
    ensures |a| <= |b|
  {
    assert b == a + (b - a);
  }

  lemma AllConfirmed(c: Config, w: Walk, added: set<nat>, k: Desk, done: seq<Share.Done>)
    requires WalkOk(w, added) && DeskOk(c, k, w.total, done) && k.filesOk >= w.filesTotal
    ensures k.confirmed == w.total
  {
    SubsetOfSameSize(k.confirmed, w.total);
  }

  lemma CompleteControl(c: Config, names: nat -> string, s: State)
    requires s.walk.over && s.desk.filesOk >= s.walk.filesTotal && !s.complete
    requires ControlOk(c, names, s)
    ensures ControlOk(c, names, DoComplete(s))
  {
    hide WalkOk, QueueOk, NamesOk, CountsOk, OpeningOk, ClosingOk, InfoOk, ReceiptsOk, DeskOk, ReportedOk;
    AllConfirmed(c, s.walk, s.p.tx.added, s.desk, s.p.tx.done);
    FinalItem(c, names, s.toRx, s.complete);
    NamesGrow(c, names, s.toRx, SessionComplete, s.walk.sent, s.opening.named);
    CountsSame(c, s.toRx, SessionComplete, s.reported, s.closing.counted);
  }

  lemma FinalItem(c: Config, names: nat -> string, q: seq<Item>, complete: bool)
    requires QueueOk(c, names, q, complete) && !complete
    ensures QueueOk(c, names, q + [SessionComplete], true)
  {
    QueueGrows(c, names, q, SessionComplete, complete);
  }

  lemma QueueHead(c: Config, names: nat -> string, q: seq<Item>, complete: bool)
    requires QueueOk(c, names, q, complete)
    ensures NoRepeat(q)
  {
  }

  lemma ClosedWasNamed(o: Opening, ever: set<nat>, f: nat)
    requires OpeningOk(o, ever) && f in ever
    ensures f in o.named
  {
  }

  lemma NameControl(c: Config, names: nat -> string, s: State)
    requires s.toRx != [] && s.toRx[0].Spec? && s.toRx[0].m.Name? && ControlOk(c, names, s)
    ensures ControlOk(c, names, DoRxItem(s))
  {
    hide WalkOk, QueueOk, NamesOk, CountsOk, OpeningOk, ClosingOk, InfoOk, ReceiptsOk, DeskOk, ReportedOk;
    var f := s.toRx[0].m.fino;
    QueueHead(c, names, s.toRx, s.complete);
    QueueShrinks(c, names, s.toRx, s.complete);
    NamesShrink(c, names, s.toRx, s.walk.sent, s.opening.named);
    CountsShrink(c, names, s.toRx, s.reported, s.closing.counted);
    OpeningPushes(s.opening, s.p.rx.ever, f);
    if f in s.p.rx.closed {
      ClosedWasNamed(s.opening, s.p.rx.ever, f);
      assert false;
    }
    InfoNames(c, names, s.info, s.opening.named, s.closing.counted, s.p.rx.closed.Keys, f);
  }

  lemma CountControl(c: Config, names: nat -> string, s: State)
    requires s.toRx != [] && s.toRx[0].Spec? && s.toRx[0].m.Count? && ControlOk(c, names, s)
    ensures ControlOk(c, names, DoRxItem(s))
  {
    hide WalkOk, QueueOk, NamesOk, CountsOk, OpeningOk, ClosingOk, InfoOk, ReceiptsOk, DeskOk, ReportedOk;
    var f := s.toRx[0].m.fino;
    QueueHead(c, names, s.toRx, s.complete);
    QueueShrinks(c, names, s.toRx, s.complete);
    NamesShrink(c, names, s.toRx, s.walk.sent, s.opening.named);
    CountsShrink(c, names, s.toRx, s.reported, s.closing.counted);
    ClosingPushes(s.closing, s.p.rx.closed.Keys, f);
    InfoCounts(c, names, s.info, s.opening.named, s.closing.counted, s.p.rx.closed.Keys, f);
  }

  lemma ByeControl(c: Config, names: nat -> string, s: State)
    requires s.toRx != [] && s.toRx[0].SessionComplete? && ControlOk(c, names, s)
    ensures ControlOk(c, names, DoRxItem(s))
  {
    hide WalkOk, QueueOk, NamesOk, CountsOk, OpeningOk, ClosingOk, InfoOk, ReceiptsOk, DeskOk, ReportedOk;
    QueueHead(c, names, s.toRx, s.complete);
    QueueShrinks(c, names, s.toRx, s.complete);
    NamesShrink(c, names, s.toRx, s.walk.sent, s.opening.named);
    CountsShrink(c, names, s.toRx, s.reported, s.closing.counted);
  }

  lemma RxOpenControl(c: Config, names: nat -> string, s: State)
    requires CanOpen(s) && ControlOk(c, names, s)
    ensures ControlOk(c, names, DoRxOpen(c, s))
  {
    hide WalkOk, QueueOk, NamesOk, CountsOk, OpeningOk, ClosingOk, InfoOk, ReceiptsOk, DeskOk, ReportedOk;
    OpeningPops(s.opening, s.p.rx.ever);
  }

  /** When close_file finds the count reached, the merged record is complete and right. */
  lemma CloseIsReady(c: Config, names: nat -> string, s: State)
    requires CanClose(s) && s.closing.closeQ[0] in s.p.rx.ever && ControlOk(c, names, s)
    ensures var f := s.closing.closeQ[0];
            s.info[f].blocks == BlockCount(c, f) && s.info[f].sz == |c.src(f)| && f !in s.p.rx.closed
  {
    hide WalkOk, QueueOk, NamesOk, CountsOk, OpeningOk, ClosingOk, InfoOk, ReceiptsOk, DeskOk, ReportedOk;
    ClosingPops(s.closing, s.p.rx.closed.Keys);
    var f := s.closing.closeQ[0];
    ClosedWasNamed(s.opening, s.p.rx.ever, f);
    InfoReady(c, names, s.info, s.opening.named, s.closing.counted, s.p.rx.closed.Keys, f);
  }

  lemma RxCloseControl(c: Config, names: nat -> string, s: State)
    requires CanClose(s) && s.closing.closeQ[0] in s.p.rx.ever
    requires s.p.rx.table[s.closing.closeQ[0]].crc == CrcAll(c, s.closing.closeQ[0])
    requires ControlOk(c, names, s)
    ensures ControlOk(c, names, DoRxClose(c, s))
  {
    hide WalkOk, QueueOk, NamesOk, CountsOk, OpeningOk, ClosingOk, InfoOk, ReceiptsOk, DeskOk, ReportedOk;
    var f := s.closing.closeQ[0];
    ClosingPops(s.closing, s.p.rx.closed.Keys);
    ClosedWasNamed(s.opening, s.p.rx.ever, f);
    InfoReady(c, names, s.info, s.opening.named, s.closing.counted, s.p.rx.closed.Keys, f);
    ReceiptQueued(c, s.doneQ, s.toTx, s.desk.confirmed, s.p.rx.closed.Keys, f);
    assert DoRxClose(c, s).p.rx.closed.Keys == s.p.rx.closed.Keys + {f};
  }

  lemma RxSendControl(c: Config, names: nat -> string, s: State)
    requires s.doneQ != [] && ControlOk(c, names, s)
    ensures ControlOk(c, names, DoRxSend(s))
  {
    hide WalkOk, QueueOk, NamesOk, CountsOk, OpeningOk, ClosingOk, InfoOk, ReceiptsOk, DeskOk, ReportedOk;
    ReceiptTravels(c, s.doneQ, s.toTx, s.desk.confirmed, s.p.rx.closed.Keys);
  }

  // ---- Every action keeps the whole invariant ----

  lemma DataKeeps(c: Config, names: nat -> string, sparse: bool, s: State, d: D.Step)
    requires Inv(c, names, s) && Background(d) && D.Can(c, s.p, d)
    ensures Inv(c, names, s.(p := D.Do(c, sparse, s.p, d)))
  {
    hide D.Inv, ControlOk;
    D.StepKeeps(c, sparse, s.p, d);
    BackgroundFrame(c, sparse, s.p, d);
    DataControl(c, names, s, D.Do(c, sparse, s.p, d));
  }

  lemma EnumerateKeeps(c: Config, names: nat -> string, s: State, f: nat)
    requires Inv(c, names, s) && 1 <= f <= s.walk.drawn && f !in s.p.tx.added
    ensures Inv(c, names, DoEnumerate(c, s, f))
  {
    hide D.Inv, ControlOk;
    D.TxKeeps(c, s.p, Share.Add(f));
    EnumerateControl(c, names, s, D.DoTx(c, s.p, Share.Add(f)), f);
  }

  /** Completions in the ring are exact and distinct. */
  lemma DoneIsExact(c: Config, p: D.Plane, j: nat)
    requires D.Inv(c, p) && j < |p.tx.done|
    ensures p.tx.done[j] == Share.Exact(c, p.tx.done[j].file)
    ensures forall i | 0 <= i < j :: p.tx.done[i].file != p.tx.done[j].file
  {
  }

  lemma RxOpenKeeps(c: Config, names: nat -> string, s: State)
    requires Inv(c, names, s) && CanOpen(s)
    ensures Inv(c, names, DoRxOpen(c, s))
  {
    hide ControlOk, D.RxInv;
    RxOpenControl(c, names, s);
    D.OpenKeeps(c, s.p.rx, s.opening.addQ[0]);
    D.RxOnly(c, s.p, D.DoOpen(c, s.p.rx, s.opening.addQ[0]));
  }

  lemma TableWasOpened(c: Config, r: D.Rx, f: nat)
    requires D.RxInv(c, r) && f in r.table
    ensures f in r.ever
  {
    assert D.SlotOk(c, r, f);
  }

  lemma RxCloseKeeps(c: Config, names: nat -> string, s: State)
    requires Inv(c, names, s) && CanClose(s)
    ensures Inv(c, names, DoRxClose(c, s))
  {
    hide ControlOk, D.RxInv;
    var f := s.closing.closeQ[0];
    TableWasOpened(c, s.p.rx, f);
    CloseIsReady(c, names, s);
    D.ClosedIsWhole(c, s.p.rx, f);
    RxCloseControl(c, names, s);
    D.CloseKeeps(c, s.p.rx, f);
    D.RxOnly(c, s.p, D.DoClose(c, s.p.rx, f, s.info[f].sz));
  }

  lemma RxItemKeeps(c: Config, names: nat -> string, s: State)
    requires Inv(c, names, s) && s.toRx != []
    ensures Inv(c, names, DoRxItem(s))
  {
    hide D.Inv, ControlOk;
    match s.toRx[0]
    case SessionComplete => ByeControl(c, names, s);
    case Spec(m) =>
      if m.Name? {
        NameControl(c, names, s);
      } else {
        CountControl(c, names, s);
      }
  }

  /** The sender's own actions. */
  lemma SenderKeeps(c: Config, names: nat -> string, sparse: bool, s: State, a: Action)
    requires a.Draw? || a.Receive? || a.Announce? || a.WalkOver? || a.Report? || a.Enter? || a.Confirm? || a.Complete?
    requires Inv(c, names, s) && Can(c, s, a)
    ensures Inv(c, names, Do(c, names, sparse, s, a))
  {
    hide D.Inv, ControlOk;
    match a
    case Draw => DrawControl(c, names, s);
    case Receive(f) => ReceiveControl(c, names, s, f);
    case Announce => AnnounceControl(c, names, s);
    case WalkOver => WalkOverControl(c, names, s);
    case Report(j) =>
      DoneIsExact(c, s.p, j);
      ReportControl(c, names, s, j);
    case Enter =>
      DoneIsExact(c, s.p, s.desk.entered);
      EnterControl(c, names, s);
    case Confirm => ConfirmControl(c, names, s);
    case Complete => CompleteControl(c, names, s);
  }

  lemma FinishKeeps(c: Config, names: nat -> string, s: State)
    requires s.bye && Inv(c, names, s)
    ensures Inv(c, names, s.(finished := true))
  {
    hide D.Inv, WalkOk, QueueOk, NamesOk, CountsOk, OpeningOk, ClosingOk, InfoOk, ReceiptsOk, DeskOk, ReportedOk;
  }

  lemma ActionKeeps(c: Config, names: nat -> string, sparse: bool, s: State, a: Action)
    requires Inv(c, names, s) && Can(c, s, a)
    ensures Inv(c, names, Do(c, names, sparse, s, a))
  {
    hide D.Inv, ControlOk;
    match a
    case Data(d) => DataKeeps(c, names, sparse, s, d);
    case Enumerate(f) => EnumerateKeeps(c, names, s, f);
    case RxItem => RxItemKeeps(c, names, s);
    case RxOpen => RxOpenKeeps(c, names, s);
    case RxClose => RxCloseKeeps(c, names, s);
    case RxSend => RxSendControl(c, names, s);
    case RxFinish => FinishKeeps(c, names, s);
    case _ => SenderKeeps(c, names, sparse, s, a);
  }

  // ---- Runs ----

  predicate Legal(c: Config, names: nat -> string, sparse: bool, s: State, run: seq<Action>)
    decreases |run|, 0
  {
    run == [] ||
    (Legal(c, names, sparse, s, run[..|run| - 1]) &&
     Can(c, Exec(c, names, sparse, s, run[..|run| - 1]), run[|run| - 1]))
  }

  function Exec(c: Config, names: nat -> string, sparse: bool, s: State, run: seq<Action>): State
    requires Legal(c, names, sparse, s, run)
    decreases |run|, 1
  {
    if run == [] then s else Do(c, names, sparse, Exec(c, names, sparse, s, run[..|run| - 1]), run[|run| - 1])
  }

  /** The premises of an error-free run: 4 KiB blocks, and no more workers than the state word
      has room for. */
  predicate Ordinary(c: Config, n: nat) {
    c.block % 4096 == 0 && n <= W.MAX_WORKERS
  }

  lemma StartOk(c: Config, names: nat -> string, n: nat, m: nat)
    requires Ordinary(c, n)
    ensures Inv(c, names, Start(n, m))
  {
    hide D.Inv;
    D.StartOk(c, n, m);
  }

  lemma {:induction false} RunKeeps(c: Config, names: nat -> string, sparse: bool, n: nat, m: nat, run: seq<Action>)
    requires Ordinary(c, n) && Legal(c, names, sparse, Start(n, m), run)
    ensures Inv(c, names, Exec(c, names, sparse, Start(n, m), run))
    decreases |run|
  {
    hide Inv;
    if run == [] {
      StartOk(c, names, n, m);
    } else {
      RunKeeps(c, names, sparse, n, m, run[..|run| - 1]);
      ActionKeeps(c, names, sparse, Exec(c, names, sparse, Start(n, m), run[..|run| - 1]), run[|run| - 1]);
    }
  }

  // ---- What the session promises ----

  /** Some run of `n` sender workers and `m` receive workers leads to this state. */
  ghost predicate Reachable(c: Config, names: nat -> string, sparse: bool, n: nat, m: nat, s: State) {
    && Ordinary(c, n)
    && exists run :: Legal(c, names, sparse, Start(n, m), run) && s == Exec(c, names, sparse, Start(n, m), run)
  }

  lemma ReachableOk(c: Config, names: nat -> string, sparse: bool, n: nat, m: nat, s: State)
    requires Reachable(c, names, sparse, n, m, s)
    ensures Inv(c, names, s)
  {
    hide Inv;
    var run :| Legal(c, names, sparse, Start(n, m), run) && s == Exec(c, names, sparse, Start(n, m), run);
    RunKeeps(c, names, sparse, n, m, run);
  }

  /** File `f` is at the receiver, whole and with the hash the sender computed. */
  predicate Arrived(c: Config, s: State, f: nat) {
    && f in s.p.rx.closed
    && s.p.rx.closed[f].content == c.src(f)
    && s.p.rx.closed[f].crc == CrcAll(c, f)
    && s.p.rx.closed[f].blocks == BlockCount(c, f)
  }

  lemma ConfirmedWasClosed(c: Config, s: State)
    requires ReceiptsOk(c, s.doneQ, s.toTx, s.desk.confirmed, s.p.rx.closed.Keys)
    ensures s.desk.confirmed <= s.p.rx.closed.Keys
  {
  }

  lemma OpenedWereAnnounced(c: Config, names: nat -> string, s: State)
    requires WalkOk(s.walk, s.p.tx.added) && NamesOk(c, names, s.toRx, s.walk.sent, s.opening.named)
    requires OpeningOk(s.opening, s.p.rx.ever)
    ensures s.p.rx.ever <= s.opening.named <= s.walk.total
  {
  }

  lemma WalkIsOver(w: Walk, added: set<nat>)
    requires WalkOk(w, added) && w.over
    ensures w.total == added == Range(w.drawn) && w.sent == w.drawn == w.filesTotal
  {
    assert w.drawn > 0 ==> w.drawn in Range(w.drawn);
    assert w.sent > 0 ==> w.sent in w.total;
  }

  lemma HeadIsIn(q: seq<nat>)
    ensures q == [] || q[0] in q
  {
  }

  lemma AddsDone(o: Opening, ever: set<nat>)
    requires OpeningOk(o, ever) && o.named <= ever
    ensures o.addQ == [] && o.countIn == |ever|
  {
    HeadIsIn(o.addQ);
  }

  lemma ClosesDone(k: Closing, closed: set<nat>)
    requires ClosingOk(k, closed) && k.counted <= closed
    ensures k.closeQ == [] && k.countOut == |closed|
  {
    HeadIsIn(k.closeQ);
  }

  /** Counts are only ever reported for files the walk numbered. */
  lemma CountedWereAdded(c: Config, s: State)
    requires Share.DoneOk(c, s.p.tx) && ReportedOk(s.reported, s.p.tx.done)
    requires CountsOk(c, s.toRx, s.reported, s.closing.counted)
    ensures s.closing.counted <= s.p.tx.added
  {
    forall f | f in s.closing.counted
      ensures f in s.p.tx.added
    {
      var j :| 0 <= j < |s.p.tx.done| && s.p.tx.done[j].file == f;
      assert Share.Finished(s.p.tx, s.p.tx.done[j].file);
    }
  }

  /** When every file is confirmed, the numbers announced are 1 to n, all of them are closed,
      nothing waits to be opened or closed, and the receiver's counts agree. */
  lemma AllClosed(c: Config, names: nat -> string, s: State)
    requires s.complete && Inv(c, names, s)
    ensures s.walk.total == Range(s.walk.drawn) == s.p.rx.closed.Keys == s.p.rx.ever
    ensures s.opening.addQ == [] && s.closing.closeQ == []
    ensures s.opening.countIn == s.closing.countOut == s.walk.filesTotal == s.walk.sent == s.walk.drawn
  {
    hide WalkOk, QueueOk, NamesOk, CountsOk, OpeningOk, ClosingOk, InfoOk, ReceiptsOk, DeskOk, ReportedOk,
      D.RxInv, Share.DoneOk;
    ConfirmedWasClosed(c, s);
    OpenedWereAnnounced(c, names, s);
    WalkIsOver(s.walk, s.p.tx.added);
    AddsDone(s.opening, s.p.rx.ever);
    CountedWereAdded(c, s);
    ClosesDone(s.closing, s.p.rx.closed.Keys);
  }

  lemma ClosedArrived(c: Config, s: State, f: nat)
    requires D.Inv(c, s.p) && f in s.p.rx.closed
    ensures Arrived(c, s, f)
  {
    assert D.ClosedOk(c, s.p.rx, f);
  }

  /** End-to-end safety. In every reachable state, once the sender has sent session_complete, the
      files numbered 1 to n, and only those, have been opened and closed at the receiver, each
      holds the source's bytes and the sender's hash, nothing waits to be opened or closed, and
      the receiver's in and out counts agree. */
  lemma SessionSafe(c: Config, names: nat -> string, sparse: bool, n: nat, m: nat, s: State)
    requires Reachable(c, names, sparse, n, m, s) && s.complete
    ensures s.p.rx.closed.Keys == Range(s.walk.drawn) == s.p.rx.ever
    ensures forall f | 1 <= f <= s.walk.drawn :: Arrived(c, s, f)
    ensures s.opening.addQ == [] && s.closing.closeQ == []
    ensures s.opening.countIn == s.closing.countOut == s.walk.filesTotal == s.walk.drawn
  {
    hide Reachable, D.Inv, ControlOk;
    ReachableOk(c, names, sparse, n, m, s);
    AllClosed(c, names, s);
    forall f | 1 <= f <= s.walk.drawn
      ensures Arrived(c, s, f)
    {
      ClosedArrived(c, s, f);
    }
  }

  /** The receiver only leaves its loop after session_complete, and then everything has arrived. */
  lemma FinishedIsSafe(c: Config, names: nat -> string, sparse: bool, n: nat, m: nat, s: State)
    requires Reachable(c, names, sparse, n, m, s) && s.finished
    ensures s.complete && forall f | 1 <= f <= s.walk.drawn :: Arrived(c, s, f)
  {
    hide Reachable, D.Inv, ControlOk;
    ReachableOk(c, names, sparse, n, m, s);
    EndHolds(c, names, s);
    FinishedWasComplete(s);
    SessionSafe(c, names, sparse, n, m, s);
  }

  lemma EndHolds(c: Config, names: nat -> string, s: State)
    requires ControlOk(c, names, s)
    ensures EndOk(s)
  {
    hide WalkOk, QueueOk, NamesOk, CountsOk, OpeningOk, ClosingOk, InfoOk, ReceiptsOk, DeskOk, ReportedOk;
  }

  lemma FinishedWasComplete(s: State)
    requires EndOk(s) && s.finished
    ensures s.complete
  {
  }

  /** No reachable state has met a confirmation whose hash differs from the one in the ledger. */
  lemma NoMismatch(c: Config, names: nat -> string, sparse: bool, n: nat, m: nat, s: State)
    requires Reachable(c, names, sparse, n, m, s)
    ensures !s.failed
  {
    hide Reachable, D.Inv, ControlOk;
    ReachableOk(c, names, sparse, n, m, s);
    EndHolds(c, names, s);
  }

  /** Ledger conservation: files confirmed plus files announced to the ledger but not confirmed
      make up the total; a confirmed file was closed whole, and is out of the ledger for good. */
  lemma LedgerConserves(c: Config, names: nat -> string, sparse: bool, n: nat, m: nat, s: State)
    requires Reachable(c, names, sparse, n, m, s)
    ensures s.desk.filesOk + |s.walk.total - s.desk.confirmed| == s.walk.filesTotal
    ensures s.walk.total - s.desk.confirmed <= s.desk.book.Keys
    ensures s.desk.confirmed !! s.desk.book.Keys
    ensures forall f | f in s.desk.confirmed :: Arrived(c, s, f)
  {
    hide Reachable, D.Inv, ControlOk;
    ReachableOk(c, names, sparse, n, m, s);
    DeskConserves(c, names, s);
    forall f | f in s.desk.confirmed
      ensures Arrived(c, s, f)
    {
      ClosedArrived(c, s, f);
    }
  }

  lemma DeskConserves(c: Config, names: nat -> string, s: State)
    requires ControlOk(c, names, s)
    ensures s.desk.filesOk + |s.walk.total - s.desk.confirmed| == s.walk.filesTotal
    ensures s.walk.total - s.desk.confirmed <= s.desk.book.Keys && s.desk.confirmed !! s.desk.book.Keys
    ensures s.desk.confirmed <= s.p.rx.closed.Keys
  {
    hide QueueOk, NamesOk, CountsOk, OpeningOk, ClosingOk, InfoOk, ReportedOk;
    assert s.walk.total == s.desk.confirmed + (s.walk.total - s.desk.confirmed);
  }
}
