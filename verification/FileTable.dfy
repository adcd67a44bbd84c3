/** The open-file table: 2048 slots, probed by a 22-step pseudo-random walk, no tombstones.

    Any number of threads insert (file_addfile), look up (file_getstats, file_wait and the
    second half of file_next) and wipe at the same time. A record is four 16-byte lanes; copies
    load lanes low to high and store them high to low, so the lane with the state word and the
    file number is loaded first and stored last. Every step below is one atomic operation or
    one lane.

    File numbers are used once and are never 0; a refused insertion is tried again with the same
    number. A file is not wiped while somebody is still
    looking it up: on the sender only the worker that drew the file's ticket looks it up, and
    on the receiver a worker that looks up a file holds one of its blocks, without which the
    file is not complete. A file without blocks is wiped straight from its initial state.

    `live`, `index`, `recs`, `ever`, `gone`, `claims`, `pending` and `wins` are history.
 */
module FileTable {
  import opened Probing
  import opened W = StateWord

  // ---- State ----

  /** Lanes 1 to 3 of a record. */
  datatype Rest = Rest(a: nat, b: nat, d: nat)

  datatype Slot = Slot(word: W.State, file: nat, rest: Rest)

  const ZERO: Slot := Slot(Free, 0, Rest(0, 0, 0))

  /** A slot that was tried, and the state word found there. */
  datatype Seen = Seen(slot: nat, word: W.State)

  datatype Adder =
    | NoAdd
    | Trying(f: nat, rec: Rest, i: nat, busy: seq<Seen>)    // the slots passed so far
    | Storing(f: nat, rec: Rest, i: nat, k: nat)     // slot claimed; lane k is stored next
    | Added(f: nat, slot: nat)
    | Refused(f: nat, busy: seq<Seen>)

  datatype Looker =
    | NoLook
    | Walking(f: nat, i: nat, sure: bool, met: bool)
    | Loading(f: nat, i: nat, sure: bool, met: bool, snap: Slot, k: nat)    // k lanes loaded
    | Won(f: nat, slot: nat, snap: Slot)
    | Found(f: nat, slot: nat)
    | Missed(f: nat, sure: bool, met: bool)

  datatype Table = Table(slots: seq<Slot>, adders: seq<Adder>, lookers: seq<Looker>, wiping: map<nat, nat>,
                         live: map<nat, nat>, index: map<nat, nat>, recs: map<nat, Rest>, ever: set<nat>,
                         gone: set<nat>, claims: map<nat, nat>, pending: map<nat, nat>, wins: map<nat, Slot>)

  datatype Step =
    | Begin(w: nat, f: nat, rec: Rest)     // file_addfile is called
    | Retry(w: nat, rec: Rest)             // the caller tries again after a refusal
    | Take(w: nat)                         // compare-and-swap 0 to 0xBedFace succeeds
    | Pass(w: nat)                         // it fails: next probe, or give up after 22
    | Store(w: nat)                        // one lane of the new record, high to low
    | Look(v: nat, f: nat)                 // a lookup walk starts
    | Load(v: nat)                         // one lane of the probed slot, low to high
    | Win(v: nat, ids: set<nat>)           // compare-and-swap FS_INIT to FS_COMPLETE | FS_IO ...
    | Settle(v: nat)                       // file number matches and that is enough
    | Next(v: nat)                         // on to the next probe
    | Work(f: nat, word: W.State, rest: Rest)  // workers change an open record
    | Wipe(f: nat)                         // memset starts
    | Zero(f: nat)                         // one lane, high to low

  function Start(n: nat, m: nat): Table {
    Table(seq(2048, _ => ZERO), seq(n, _ => NoAdd), seq(m, _ => NoLook), map[],
          map[], map[], map[], {}, {}, map[], map[], map[])
  }

  predicate Searching(x: Looker, f: nat) { (x.Walking? || x.Loading?) && x.f == f }

  predicate Wf(s: Table) { |s.slots| == 2048 }

  predicate CanWin(s: Table, v: nat)
    requires Wf(s)
  {
    && v < |s.lookers| && s.lookers[v].Loading?
    && s.lookers[v].k == 4 && s.lookers[v].snap.file == s.lookers[v].f && s.lookers[v].snap.word == Init
    && s.slots[Probe(s.lookers[v].f, s.lookers[v].i)].word == Init
  }

  predicate Can(s: Table, a: Step)
    requires Wf(s)
  {
    match a
    case Begin(w, f, rec) => w < |s.adders| && (s.adders[w].NoAdd? || s.adders[w].Added?) && f > 0 && f !in s.ever
    case Retry(w, rec) => w < |s.adders| && s.adders[w].Refused?
    case Take(w) => w < |s.adders| && s.adders[w].Trying? && s.slots[Probe(s.adders[w].f, s.adders[w].i)].word == Free
    case Pass(w) => w < |s.adders| && s.adders[w].Trying? && s.slots[Probe(s.adders[w].f, s.adders[w].i)].word != Free
    case Store(w) => w < |s.adders| && s.adders[w].Storing?
    case Look(v, f) => v < |s.lookers| && !s.lookers[v].Walking? && !s.lookers[v].Loading? && f > 0 && f !in s.gone
    case Load(v) => v < |s.lookers| && (s.lookers[v].Walking? || (s.lookers[v].Loading? && s.lookers[v].k < 4))
    case Win(v, ids) => CanWin(s, v)
    case Settle(v) => v < |s.lookers| && s.lookers[v].Loading? && s.lookers[v].snap.file == s.lookers[v].f
    case Next(v) => v < |s.lookers| && s.lookers[v].Loading?
    case Work(f, word, rest) =>
      f in s.live && f !in s.gone && s.live[f] < 2048 && s.slots[s.live[f]].word.Open? && word.Open?
    case Wipe(f) =>
      && f in s.live && f !in s.gone && s.live[f] < 2048
      && forall v | 0 <= v < |s.lookers| :: !Searching(s.lookers[v], f)
    case Zero(f) => f in s.live && f in s.wiping && s.live[f] < 2048
  }

  /** One lane of a record put in place; lane 0 carries the state word and the file number. */
  function Lane(x: Slot, y: Slot, k: nat): Slot {
    match k
    case 0 => Slot(y.word, y.file, x.rest)
    case 1 => x.(rest := x.rest.(a := y.rest.a))
    case 2 => x.(rest := x.rest.(b := y.rest.b))
    case _ => x.(rest := x.rest.(d := y.rest.d))
  }

  function DoBegin(s: Table, w: nat, f: nat, rec: Rest): Table
    requires w < |s.adders|
  {
    s.(adders := s.adders[w := Trying(f, rec, 0, [])], ever := s.ever + {f}, pending := s.pending[f := w])
  }

  function DoTake(s: Table, w: nat): Table
    requires Wf(s) && w < |s.adders| && s.adders[w].Trying?
  {
    var x := s.adders[w];
    var j := Probe(x.f, x.i);
    s.(slots := s.slots[j := s.slots[j].(word := Claimed)], claims := s.claims[j := w],
       adders := s.adders[w := Storing(x.f, x.rec, x.i, 3)])
  }

  function DoPass(s: Table, w: nat): Table
    requires Wf(s) && w < |s.adders| && s.adders[w].Trying?
  {
    var x := s.adders[w];
    var j := Probe(x.f, x.i);
    var busy := x.busy + [Seen(j, s.slots[j].word)];
    s.(adders := s.adders[w := if x.i < 21 then Trying(x.f, x.rec, x.i + 1, busy) else Refused(x.f, busy)])
  }

  function StoreLane(s: Table, w: nat): Table
    requires Wf(s) && w < |s.adders| && s.adders[w].Storing? && s.adders[w].k > 0
  {
    var x := s.adders[w];
    var j := Probe(x.f, x.i);
    s.(slots := s.slots[j := Lane(s.slots[j], Slot(Init, x.f, x.rec), x.k)],
       adders := s.adders[w := Storing(x.f, x.rec, x.i, x.k - 1)])
  }

  /** The last lane makes the record visible. */
  function StoreLast(s: Table, w: nat): Table
    requires Wf(s) && w < |s.adders| && s.adders[w].Storing?
  {
    var x := s.adders[w];
    var j := Probe(x.f, x.i);
    s.(slots := s.slots[j := Lane(s.slots[j], Slot(Init, x.f, x.rec), 0)], adders := s.adders[w := Added(x.f, j)],
       live := s.live[x.f := j], index := s.index[x.f := x.i], recs := s.recs[x.f := x.rec])
  }

  function DoLook(s: Table, v: nat, f: nat): Table
    requires v < |s.lookers|
  {
    s.(lookers := s.lookers[v := Walking(f, 0, f in s.live, false)])
  }

  function DoLoad(s: Table, v: nat): Table
    requires Wf(s) && v < |s.lookers| && (s.lookers[v].Walking? || s.lookers[v].Loading?)
  {
    var x := s.lookers[v];
    var y := s.slots[Probe(x.f, x.i)];
    s.(lookers := s.lookers[v :=
         if x.Walking? then Loading(x.f, x.i, x.sure, x.met || y.file == x.f, Lane(ZERO, y, 0), 1)
         else Loading(x.f, x.i, x.sure, x.met, Lane(x.snap, y, x.k), x.k + 1)])
  }

  function DoWin(s: Table, v: nat, ids: set<nat>): Table
    requires Wf(s) && CanWin(s, v)
  {
    var x := s.lookers[v];
    var j := Probe(x.f, x.i);
    s.(slots := s.slots[j := s.slots[j].(word := Open(true, ids))], wins := s.wins[x.f := x.snap],
       lookers := s.lookers[v := Won(x.f, j, x.snap)])
  }

  function DoNext(s: Table, v: nat): Table
    requires v < |s.lookers| && s.lookers[v].Loading?
  {
    var x := s.lookers[v];
    s.(lookers := s.lookers[v :=
         if x.i < 21 then Walking(x.f, x.i + 1, x.sure, x.met) else Missed(x.f, x.sure, x.met)])
  }

  function ZeroLane(s: Table, f: nat): Table
    requires Wf(s) && f in s.live && f in s.wiping && s.live[f] < 2048 && s.wiping[f] > 0
  {
    var j, k := s.live[f], s.wiping[f];
    s.(slots := s.slots[j := Lane(s.slots[j], ZERO, k)], wiping := s.wiping[f := k - 1])
  }

  /** The last lane frees the slot. */
  function ZeroLast(s: Table, f: nat): Table
    requires Wf(s) && f in s.live && s.live[f] < 2048
  {
    var j := s.live[f];
    s.(slots := s.slots[j := Lane(s.slots[j], ZERO, 0)], wiping := s.wiping - {f}, live := s.live - {f})
  }

  function Do(s: Table, a: Step): (r: Table)
    requires Wf(s) && Can(s, a)
    ensures Wf(r)
  {
    match a
    case Begin(w, f, rec) => DoBegin(s, w, f, rec)
    case Retry(w, rec) => s.(adders := s.adders[w := Trying(s.adders[w].f, rec, 0, [])])
    case Take(w) => DoTake(s, w)
    case Pass(w) => DoPass(s, w)
    case Store(w) => if s.adders[w].k > 0 then StoreLane(s, w) else StoreLast(s, w)
    case Look(v, f) => DoLook(s, v, f)
    case Load(v) => DoLoad(s, v)
    case Win(v, ids) => DoWin(s, v, ids)
    case Settle(v) => s.(lookers := s.lookers[v := Found(s.lookers[v].f, Probe(s.lookers[v].f, s.lookers[v].i))])
    case Next(v) => DoNext(s, v)
    case Work(f, word, rest) => s.(slots := s.slots[s.live[f] := Slot(word, f, rest)])
    case Wipe(f) => s.(gone := s.gone + {f}, wiping := s.wiping[f := 3])
    case Zero(f) => if s.wiping[f] > 0 then ZeroLane(s, f) else ZeroLast(s, f)
  }

  // ---- Invariant ----

  ghost predicate SlotOk(s: Table, j: nat)
    requires Wf(s) && j < 2048
  {
    var x := s.slots[j];
    match x.word
    case Free => x == ZERO
    case Claimed => x.file == 0
    case _ => x.file in s.live && s.live[x.file] == j
  }

  ghost predicate LiveOk(s: Table, f: nat)
    requires Wf(s) && f in s.live
  {
    && f > 0 && f in s.ever && f in s.index && s.index[f] < 22 && s.live[f] == Probe(f, s.index[f])
    && s.slots[s.live[f]].file == f && (s.slots[s.live[f]].word == Init || s.slots[s.live[f]].word.Open?)
    && f in s.recs
    && (s.slots[s.live[f]].word == Init ==> (f in s.gone || s.slots[s.live[f]].rest == s.recs[f]) && f !in s.wins)
    && (f in s.gone <==> f in s.wiping)
    && (f in s.wiping ==> s.wiping[f] < 4 && LanesZero(s.slots[s.live[f]].rest, s.wiping[f]))
  }

  /** The lanes above `k` have been zeroed. */
  predicate LanesZero(r: Rest, k: nat) {
    (k < 1 ==> r.a == 0) && (k < 2 ==> r.b == 0) && (k < 3 ==> r.d == 0)
  }

  /** The lanes above `k` are those of `q`. */
  predicate LanesAre(r: Rest, q: Rest, k: nat) {
    (k < 1 ==> r.a == q.a) && (k < 2 ==> r.b == q.b) && (k < 3 ==> r.d == q.d)
  }

  /** File `f` is being inserted by thread `w` and not in the table yet. */
  ghost predicate Inserting(s: Table, w: nat, f: nat) {
    && f > 0 && f in s.ever && f !in s.live && f !in s.gone && f !in s.wins
    && f in s.pending && s.pending[f] == w
  }

  ghost predicate AdderOk(s: Table, w: nat)
    requires Wf(s) && w < |s.adders|
  {
    match s.adders[w]
    case Trying(f, rec, i, busy) => Inserting(s, w, f) && i < 22 && AllBusy(f, busy, i)
    case Storing(f, rec, i, k) =>
      && Inserting(s, w, f) && i < 22 && k < 4
      && var j := Probe(f, i);
         && j in s.claims && s.claims[j] == w && s.slots[j].word == Claimed
         && LanesAre(s.slots[j].rest, rec, k)
    case Refused(f, busy) => Inserting(s, w, f) && AllBusy(f, busy, 22)
    case _ => true
  }

  /** The first `n` slots on the walk of `f` were tried and none of them was free. */
  predicate AllBusy(f: nat, busy: seq<Seen>, n: nat) {
    |busy| == n && forall i | 0 <= i < n :: busy[i].slot == Probe(f, i) && busy[i].word != Free
  }

  /** The first `k` lanes of a snapshot are those of the record. */
  predicate SnapIs(x: Slot, q: Rest, k: nat) {
    (k > 1 ==> x.rest.a == q.a) && (k > 2 ==> x.rest.b == q.b) && (k > 3 ==> x.rest.d == q.d)
  }

  ghost predicate LookerOk(s: Table, v: nat)
    requires Wf(s) && v < |s.lookers|
  {
    match s.lookers[v]
    case Walking(f, i, sure, met) =>
      && i < 22 && f > 0 && f !in s.gone
      && (sure && !met ==> f in s.live && f in s.index && i <= s.index[f])
    case Loading(f, i, sure, met, snap, k) =>
      && i < 22 && f > 0 && f !in s.gone && 1 <= k <= 4
      && (sure && !met ==> f in s.live && f in s.index && i < s.index[f])
      && (snap.file == f ==>
            && f in s.live && s.live[f] == Probe(f, i) && f in s.recs
            && (snap.word == Init && s.slots[s.live[f]].word == Init ==> SnapIs(snap, s.recs[f], k)))
    case Missed(f, sure, met) => sure ==> met
    case _ => true
  }

  /** Who won a file for the first time holds exactly the record that was added. */
  ghost predicate WinOk(s: Table, f: nat)
    requires f in s.wins
  {
    f in s.recs && s.wins[f] == Slot(Init, f, s.recs[f])
  }

  ghost predicate HistoryOk(s: Table) {
    && (forall f | f in s.gone :: f in s.ever)
    && (forall f | f in s.wiping :: f in s.live)
    && (forall f | f in s.recs :: f in s.ever)
    && (forall f | f in s.wins :: f in s.recs)
    && (forall f | f in s.pending :: f in s.ever)
  }

  ghost predicate Inv(s: Table) {
    && Wf(s) && HistoryOk(s)
    && (forall j | 0 <= j < 2048 :: SlotOk(s, j))
    && (forall f | f in s.live :: LiveOk(s, f))
    && (forall w | 0 <= w < |s.adders| :: AdderOk(s, w))
    && (forall v | 0 <= v < |s.lookers| :: LookerOk(s, v))
    && (forall f | f in s.wins :: WinOk(s, f))
  }
}
