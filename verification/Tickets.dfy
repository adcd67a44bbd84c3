/** How sender workers draw file numbers (first half of file_next).

    A worker loads the count of available files, then the head, and decides on what it saw:
    with more than 32 files ahead it draws by an unconditional fetch-add, with fewer it tries a
    compare-and-swap. By the time of the fetch-add other workers may have drawn all the files.
    A worker that has drawn ticket t looks for file number t + 1 in the table and waits until it
    is there. Several threads add files, each with the number it drew, so the numbers appear in
    any order; a file is counted some time after it has appeared.

    `got` records who drew each ticket.
 */
module Tickets {
  import opened Blocks

  datatype Worker =
    | Idle
    | Counted(fc: nat)                // file_count loaded
    | Fast(fc: nat, fh: nat)          // both loaded, more than 32 files ahead
    | Slow(fc: nat, fh: nat)          // both loaded, 1 to 32 files ahead
    | Holding(ticket: nat)            // works on file number ticket + 1

  datatype Desk = Desk(added: set<nat>, count: nat, head: nat, workers: seq<Worker>, got: seq<nat>)

  datatype Step =
    | Add(f: nat)       // file_addfile publishes file number f
    | Count             // and then counts it
    | LoadCount(w: nat)
    | LoadHead(w: nat)
    | FetchAdd(w: nat)
    | Swap(w: nat)      // the compare-and-swap succeeds
    | Miss(w: nat)      // it fails: the head moved, or spuriously

  function Start(p: nat): Desk { Desk({}, 0, 0, seq(p, _ => Idle), []) }

  predicate Can(s: Desk, a: Step) {
    match a
    case Add(f) => f > 0 && f !in s.added
    case Count => s.count < |s.added|
    case LoadCount(w) => w < |s.workers| && Free(s, s.workers[w])
    case LoadHead(w) => w < |s.workers| && s.workers[w].Counted?
    case FetchAdd(w) => w < |s.workers| && s.workers[w].Fast?
    case Swap(w) => w < |s.workers| && s.workers[w].Slow? && s.head == s.workers[w].fh
    case Miss(w) => w < |s.workers| && s.workers[w].Slow?
  }

  /** The worker holds the ticket of a file that is not in the table. */
  predicate Waits(s: Desk, x: Worker) { x.Holding? && x.ticket + 1 !in s.added }

  /** A worker asks for the next file when it has none, or is done with the one it holds. */
  predicate Free(s: Desk, x: Worker) { x.Idle? || (x.Holding? && !Waits(s, x)) }

  function Draw(s: Desk, w: nat): Desk
    requires w < |s.workers|
  {
    s.(head := s.head + 1, workers := s.workers[w := Holding(s.head)], got := s.got + [w])
  }

  function Decide(fc: nat, fh: nat): Worker {
    if fc - fh > 32 then Fast(fc, fh) else if fc - fh > 0 then Slow(fc, fh) else Idle
  }

  function Do(s: Desk, a: Step): Desk
    requires Can(s, a)
  {
    match a
    case Add(f) => s.(added := s.added + {f})
    case Count => s.(count := s.count + 1)
    case LoadCount(w) => s.(workers := s.workers[w := Counted(s.count)])
    case LoadHead(w) => s.(workers := s.workers[w := Decide(s.workers[w].fc, s.head)])
    case FetchAdd(w) => Draw(s, w)
    case Swap(w) => Draw(s, w)
    case Miss(w) => s.(workers := s.workers[w := Idle])
  }

  // ---- Invariant ----

  function Pending(workers: seq<Worker>): (n: nat)
    ensures n <= |workers|
  {
    if workers == [] then 0
    else Pending(workers[..|workers| - 1]) + if workers[|workers| - 1].Fast? then 1 else 0
  }

  lemma {:induction false} PendingUpdate(workers: seq<Worker>, w: nat, x: Worker)
    requires w < |workers|
    ensures Pending(workers[w := x]) ==
            Pending(workers) + (if x.Fast? then 1 else 0) - (if workers[w].Fast? then 1 else 0)
    decreases |workers|
  {
    var m := |workers| - 1;
    if w == m {
      assert workers[w := x][..m] == workers[..m];
    } else {
      assert workers[w := x][..m] == workers[..m][w := x];
      PendingUpdate(workers[..m], w, x);
    }
  }

  /** Somebody who is not pending leaves one fewer who can be. */
  lemma {:induction false} PendingBound(workers: seq<Worker>, w: nat)
    requires w < |workers| && !workers[w].Fast?
    ensures Pending(workers) <= |workers| - 1
    decreases |workers|
  {
    if w < |workers| - 1 {
      PendingBound(workers[..|workers| - 1], w);
    }
  }

  ghost predicate Inv(s: Desk) {
    && |s.got| == s.head
    && (s.workers == [] ==> s.head == 0)
    && (s.workers != [] ==> s.head + Pending(s.workers) <= s.count + |s.workers| - 1)
    && (forall w | 0 <= w < |s.workers| :: WorkerOk(s, w))
  }

  ghost predicate WorkerOk(s: Desk, w: nat)
    requires w < |s.workers|
  {
    match s.workers[w]
    case Counted(fc) => fc <= s.count
    case Fast(fc, fh) => fc <= s.count && fh <= s.head
    case Slow(fc, fh) => fh < fc <= s.count
    case Holding(t) => t < |s.got| && s.got[t] == w
    case Idle => true
  }

  lemma StepKeeps(s: Desk, a: Step)
    requires Inv(s) && Can(s, a)
    ensures Inv(Do(s, a)) && |Do(s, a).workers| == |s.workers|
  {
    if !a.Add? && !a.Count? {
      var w := a.w;
      assert WorkerOk(s, w);
      PendingUpdate(s.workers, w, Do(s, a).workers[w]);
      if !s.workers[w].Fast? {
        PendingBound(s.workers, w);
      }
    }
    forall v | 0 <= v < |s.workers|
      ensures WorkerOk(Do(s, a), v)
    {
      assert WorkerOk(s, v);
    }
  }

  predicate Legal(s: Desk, run: seq<Step>)
    decreases |run|, 0
  {
    run == [] || (Legal(s, run[..|run| - 1]) && Can(Exec(s, run[..|run| - 1]), run[|run| - 1]))
  }

  function Exec(s: Desk, run: seq<Step>): Desk
    requires Legal(s, run)
    decreases |run|, 1
  {
    if run == [] then s else Do(Exec(s, run[..|run| - 1]), run[|run| - 1])
  }

  lemma {:induction false} NonePending(n: nat)
    ensures Pending(seq(n, _ => Idle)) == 0
  {
    if n > 0 {
      assert seq(n, _ => Idle)[..n - 1] == seq(n - 1, _ => Idle);
      NonePending(n - 1);
    }
  }

  lemma {:induction false} RunKeeps(p: nat, run: seq<Step>)
    requires Legal(Start(p), run)
    ensures Inv(Exec(Start(p), run)) && |Exec(Start(p), run).workers| == p
    decreases |run|
  {
    if run == [] {
      NonePending(p);
    } else {
      RunKeeps(p, run[..|run| - 1]);
      StepKeeps(Exec(Start(p), run[..|run| - 1]), run[|run| - 1]);
    }
  }

  /** In every run of `p` workers the head overshoots the count by at most p - 1. */
  lemma HeadIsBounded(p: nat, run: seq<Step>)
    requires p > 0 && Legal(Start(p), run)
    ensures Exec(Start(p), run).head <= Exec(Start(p), run).count + p - 1
  {
    RunKeeps(p, run);
  }

  /** Tickets are drawn in order without a gap and each has one holder, so every file number has
      at most one first owner. */
  lemma TicketsAreUnique(p: nat, run: seq<Step>, v: nat, w: nat)
    requires Legal(Start(p), run)
    requires var s := Exec(Start(p), run);
             v < |s.workers| && w < |s.workers| && s.workers[v].Holding? && s.workers[w].Holding? && v != w
    ensures var s := Exec(Start(p), run);
            && |s.got| == s.head && s.workers[v].ticket < s.head
            && s.workers[v].ticket != s.workers[w].ticket
  {
    RunKeeps(p, run);
    assert WorkerOk(Exec(Start(p), run), v) && WorkerOk(Exec(Start(p), run), w);
  }

  /** The tickets that the first `n` workers hold past the count. */
  ghost function Stranded(s: Desk, n: nat): set<nat>
    requires n <= |s.workers|
  {
    set w | 0 <= w < n && s.workers[w].Holding? && s.workers[w].ticket >= s.count :: s.workers[w].ticket
  }

  lemma {:induction false} StrandedDiffer(s: Desk, n: nat)
    requires Inv(s) && n <= |s.workers|
    requires forall w | 0 <= w < n :: s.workers[w].Holding? && s.workers[w].ticket >= s.count
    ensures |Stranded(s, n)| == n
  {
    if n > 0 {
      StrandedDiffer(s, n - 1);
      assert Stranded(s, n) == Stranded(s, n - 1) + {s.workers[n - 1].ticket};
      assert WorkerOk(s, n - 1);
      forall w | 0 <= w < n - 1
        ensures s.workers[w].ticket != s.workers[n - 1].ticket
      {
        assert WorkerOk(s, w);
      }
    }
  }

  lemma {:induction false} FewBetween(t: set<nat>, lo: nat, hi: nat)
    requires lo <= hi && forall x | x in t :: lo <= x < hi
    ensures |t| <= hi - lo
    decreases hi
  {
    if lo < hi {
      FewBetween(t - {hi - 1}, lo, hi - 1);
      assert t <= t - {hi - 1} + {hi - 1};
    }
  }

  /** Not all workers hold tickets past the count, in any run. */
  lemma NotAllStranded(p: nat, run: seq<Step>)
    requires p > 0 && Legal(Start(p), run)
    ensures var s := Exec(Start(p), run);
            exists w | 0 <= w < |s.workers| :: !(s.workers[w].Holding? && s.workers[w].ticket >= s.count)
  {
    RunKeeps(p, run);
    var s := Exec(Start(p), run);
    if forall w | 0 <= w < |s.workers| :: s.workers[w].Holding? && s.workers[w].ticket >= s.count {
      StrandedDiffer(s, p);
      forall x | x in Stranded(s, p)
        ensures s.count <= x < s.head
      {
        var w :| 0 <= w < p && s.workers[w].Holding? && s.workers[w].ticket == x;
        assert WorkerOk(s, w);
      }
      FewBetween(Stranded(s, p), s.count, if s.head < s.count then s.count else s.head);
      assert false;
    }
  }

  /** Once all files are in the table and counted, somebody does not wait. */
  lemma NotAllWait(p: nat, run: seq<Step>)
    requires p > 0 && Legal(Start(p), run)
    requires Exec(Start(p), run).added == Range(Exec(Start(p), run).count)
    ensures var s := Exec(Start(p), run);
            exists w | 0 <= w < |s.workers| :: !Waits(s, s.workers[w])
  {
    NotAllStranded(p, run);
    var s := Exec(Start(p), run);
    var w :| 0 <= w < |s.workers| && !(s.workers[w].Holding? && s.workers[w].ticket >= s.count);
    assert !Waits(s, s.workers[w]);
  }

  // ---- The bound is tight ----

  lemma Extend(s: Desk, run: seq<Step>, a: Step)
    requires Legal(s, run) && Can(Exec(s, run), a)
    ensures Legal(s, run + [a]) && Exec(s, run + [a]) == Do(Exec(s, run), a)
  {
    assert (run + [a])[..|run|] == run;
  }

  lemma AddsMany(p: nat, n: nat) returns (run: seq<Step>)
    ensures Legal(Start(p), run) && Exec(Start(p), run) == Start(p).(added := Range(n), count := n)
  {
    run := [];
    for i := 0 to n
      invariant Legal(Start(p), run) && Exec(Start(p), run) == Start(p).(added := Range(i), count := i)
    {
      Extend(Start(p), run, Add(i + 1));
      run := run + [Add(i + 1)];
      Extend(Start(p), run, Count);
      run := run + [Count];
    }
  }

  /** All workers see 33 files and decide for the fetch-add. */
  lemma AllFast(p: nat) returns (run: seq<Step>)
    ensures Legal(Start(p), run) && Exec(Start(p), run) == Desk(Range(33), 33, 0, seq(p, _ => Fast(33, 0)), [])
  {
    hide Range;
    run := AddsMany(p, 33);
    for i := 0 to p
      invariant Legal(Start(p), run)
      invariant Exec(Start(p), run) == Desk(Range(33), 33, 0, seq(p, j => if j < i then Fast(33, 0) else Idle), [])
    {
      Extend(Start(p), run, LoadCount(i));
      run := run + [LoadCount(i)];
      Extend(Start(p), run, LoadHead(i));
      run := run + [LoadHead(i)];
    }
  }

  /** Worker 0 alone draws all 33 files. */
  lemma FirstDrawsAll(p: nat) returns (run: seq<Step>)
    requires p > 0
    ensures Legal(Start(p), run)
    ensures var s := Exec(Start(p), run);
            && s.added == Range(33) && s.count == s.head == 33 && |s.workers| == p
            && forall w | 1 <= w < p :: s.workers[w] == Fast(33, 0)
  {
    hide Range;
    run := AllFast(p);
    Extend(Start(p), run, FetchAdd(0));
    run := run + [FetchAdd(0)];
    for i := 1 to 33
      invariant Legal(Start(p), run)
      invariant var s := Exec(Start(p), run);
                && s.added == Range(33) && s.count == 33 && s.head == i && |s.workers| == p && Free(s, s.workers[0])
                && forall w | 1 <= w < p :: s.workers[w] == Fast(33, 0)
    {
      Extend(Start(p), run, LoadCount(0));
      run := run + [LoadCount(0)];
      Extend(Start(p), run, LoadHead(0));
      run := run + [LoadHead(0)];
      Extend(Start(p), run, Swap(0));
      run := run + [Swap(0)];
    }
  }

  /** Then the others' fetch-adds all run past the end, and strand them. */
  lemma BoundIsTight(p: nat) returns (run: seq<Step>)
    requires p > 0
    ensures Legal(Start(p), run)
    ensures var s := Exec(Start(p), run);
            && s.added == Range(33) && s.count == 33 && s.head == s.count + p - 1 && |s.workers| == p
            && forall w | 1 <= w < p :: Waits(s, s.workers[w])
  {
    hide Range;
    run := FirstDrawsAll(p);
    for i := 1 to p
      invariant Legal(Start(p), run)
      invariant var s := Exec(Start(p), run);
                && s.added == Range(33) && s.count == 33 && s.head == 32 + i && |s.workers| == p
                && (forall w | 1 <= w < i :: Waits(s, s.workers[w]))
                && forall w | i <= w < p :: s.workers[w] == Fast(33, 0)
    {
      Extend(Start(p), run, FetchAdd(i));
      run := run + [FetchAdd(i)];
    }
  }

  // ---- Exactly when workers are stranded ----

  /** With 32 files or fewer nobody ever takes the unconditional path. */
  lemma {:induction false} NobodyIsFast(p: nat, run: seq<Step>)
    requires Legal(Start(p), run) && Exec(Start(p), run).count <= 32
    ensures var s := Exec(Start(p), run);
            s.head <= s.count && forall w | 0 <= w < |s.workers| :: !s.workers[w].Fast?
    decreases |run|
  {
    if run != [] {
      NobodyIsFast(p, run[..|run| - 1]);
      RunKeeps(p, run[..|run| - 1]);
      var s, a := Exec(Start(p), run[..|run| - 1]), run[|run| - 1];
      if !a.Add? && !a.Count? {
        assert WorkerOk(s, a.w);
      }
    }
  }

  /** The exact condition: no run with at most `n` files draws a ticket past the count if and only
      if there is at most one worker or there are at most 32 files. */
  lemma OvershootIff(p: nat, n: nat)
    ensures (forall run | Legal(Start(p), run) && Exec(Start(p), run).count <= n ::
               Exec(Start(p), run).head <= Exec(Start(p), run).count) <==> p <= 1 || n <= 32
  {
    if p <= 1 || n <= 32 {
      forall run | Legal(Start(p), run) && Exec(Start(p), run).count <= n
        ensures Exec(Start(p), run).head <= Exec(Start(p), run).count
      {
        if n <= 32 {
          NobodyIsFast(p, run);
        } else {
          RunKeeps(p, run);
        }
      }
    } else {
      var run := BoundIsTight(p);
      assert Exec(Start(p), run).head > Exec(Start(p), run).count;
    }
  }

  lemma {:induction false} AddedGrows(s: Desk, run: seq<Step>)
    requires Legal(s, run)
    ensures s.added <= Exec(s, run).added && |Exec(s, run).workers| == |s.workers|
    decreases |run|
  {
    if run != [] {
      AddedGrows(s, run[..|run| - 1]);
      StepGrows(Exec(s, run[..|run| - 1]), run[|run| - 1]);
      hide Do, Can;
    }
  }

  lemma StepGrows(s: Desk, a: Step)
    requires Can(s, a)
    ensures s.added <= Do(s, a).added && |Do(s, a).workers| == |s.workers|
    ensures forall w | 0 <= w < |s.workers| && Waits(s, s.workers[w]) :: Do(s, a).workers[w] == s.workers[w]
  {
  }

  /** A worker whose file is not in the table keeps waiting for as long as it is not, whatever the
      others do and whatever other files are added: it takes no further ticket and never comes
      back. */
  lemma {:induction false} StrandedStays(s: Desk, run: seq<Step>, w: nat)
    requires Legal(s, run) && w < |s.workers| && s.workers[w].Holding?
    requires s.workers[w].ticket + 1 !in Exec(s, run).added
    ensures |Exec(s, run).workers| == |s.workers| && Exec(s, run).workers[w] == s.workers[w]
    decreases |run|
  {
    AddedGrows(s, run);
    if run != [] {
      AddedGrows(s, run[..|run| - 1]);
      StrandedStays(s, run[..|run| - 1], w);
      StepGrows(Exec(s, run[..|run| - 1]), run[|run| - 1]);
      hide Do, Can;
    }
  }

  /** And once its file is there, it can go on, even if the count has not reached its ticket. */
  lemma ArrivedFrees(s: Desk, w: nat)
    requires w < |s.workers| && s.workers[w].Holding?
    ensures Can(s, LoadCount(w)) <==> s.workers[w].ticket + 1 in s.added
  {
  }

  // ---- The next ticket can always be drawn ----

  /** A worker that asks finds out how many files are ahead and draws. */
  lemma AsksAndDraws(s0: Desk, run: seq<Step>, w: nat) returns (r: seq<Step>)
    requires Legal(s0, run)
    requires var s := Exec(s0, run); w < |s.workers| && Free(s, s.workers[w]) && s.head < s.count
    ensures run <= r && Legal(s0, r) && Exec(s0, r) == Draw(Exec(s0, run), w)
  {
    var s := Exec(s0, run);
    Extend(s0, run, LoadCount(w));
    r := run + [LoadCount(w)];
    Extend(s0, r, LoadHead(w));
    r := r + [LoadHead(w)];
    var t := Exec(s0, r);
    assert t.workers == s.workers[w := Decide(s.count, s.head)];
    hide Legal, Exec;
    var last := if t.workers[w].Fast? then FetchAdd(w) else Swap(w);
    Extend(s0, r, last);
    r := r + [last];
    assert t.workers[w := Holding(s.head)] == s.workers[w := Holding(s.head)];
  }

  /** The same for a worker that has loaded both numbers, whether they are still right or not. */
  lemma GoesOn(s0: Desk, run: seq<Step>, w: nat) returns (r: seq<Step>)
    requires Legal(s0, run)
    requires var s := Exec(s0, run);
             w < |s.workers| && !Waits(s, s.workers[w]) && !s.workers[w].Counted? && s.head < s.count
    ensures run <= r && Legal(s0, r) && Exec(s0, r) == Draw(Exec(s0, run), w)
  {
    hide Legal, Exec;
    var s := Exec(s0, run);
    r := run;
    if s.workers[w].Fast? {
      Extend(s0, r, FetchAdd(w));
      r := r + [FetchAdd(w)];
    } else {
      if s.workers[w].Slow? {
        Extend(s0, r, Miss(w));
        r := r + [Miss(w)];
        assert s.workers[w := Idle][w := Holding(s.head)] == s.workers[w := Holding(s.head)];
      }
      r := AsksAndDraws(s0, r, w);
    }
  }

  /** Every worker that does not wait for its file can go on to draw the next ticket, as long as there
      is a file for it, whatever it had loaded before. */
  lemma NextTicketGoes(s0: Desk, run: seq<Step>, w: nat) returns (r: seq<Step>)
    requires Legal(s0, run)
    requires var s := Exec(s0, run); w < |s.workers| && !Waits(s, s.workers[w]) && s.head < s.count
    ensures run <= r && Legal(s0, r) && Exec(s0, r) == Draw(Exec(s0, run), w)
  {
    hide Legal, Exec;
    var s := Exec(s0, run);
    r := run;
    if s.workers[w].Counted? {
      Extend(s0, r, LoadHead(w));
      r := r + [LoadHead(w)];
      var x := Decide(s.workers[w].fc, s.head);
      assert s.workers[w := x][w := Holding(s.head)] == s.workers[w := Holding(s.head)];
    }
    r := GoesOn(s0, r, w);
  }
}
