/** Attaching to a file in progress, at the granularity of the load and the compare-and-swap.

    file_next copies the slot's record and then swaps in its bit if the state word is still the
    one it copied. The word says nothing about which file is in the slot, so a slot that was
    wiped and filled again in between, and has come to the same word, passes the test. This
    machine follows one slot and shows exactly when the copy is right.

    `files` lists the files the slot has held; `turn` of a copy is how many there were when it
    was made.
 */
module AttachRace {
  import opened W = StateWord

  datatype Worker =
    | Away
    | Peeked(word: W.State, file: nat, turn: nat)      // record copied, FS_IO seen
    | Attached(file: nat)                              // works with the record it copied

  datatype Slot = Slot(word: W.State, file: nat, workers: seq<Worker>, files: seq<nat>)

  datatype Step =
    | Add(f: nat)        // file_addfile publishes FS_INIT
    | First(w: nat)      // the ticket holder claims the file
    | Peek(w: nat)       // memcpy_avx of the slot
    | Join(w: nat)       // compare-and-swap of the word that was copied
    | Leave(w: nat)      // file_iow_remove; the last one out wipes the slot

  function Start(n: nat): Slot { Slot(Free, 0, seq(n, _ => Away), []) }

  predicate Can(s: Slot, a: Step) {
    match a
    case Add(f) => s.word == Free && f > 0 && f !in s.files
    case First(w) => w < |s.workers| && s.workers[w].Away? && s.word == Init
    case Peek(w) => w < |s.workers| && s.workers[w].Away? && HasIo(s.word)
    case Join(w) => w < |s.workers| && s.workers[w].Peeked? && HasIo(s.word) && s.word == s.workers[w].word
    case Leave(w) => w < |s.workers| && s.workers[w].Attached? && s.word.Open?
  }

  function Do(s: Slot, a: Step): Slot
    requires Can(s, a)
  {
    match a
    case Add(f) => s.(word := Init, file := f, files := s.files + [f])
    case First(w) => s.(word := Open(true, {w}), workers := s.workers[w := Attached(s.file)])
    case Peek(w) => s.(workers := s.workers[w := Peeked(s.word, s.file, |s.files|)])
    case Join(w) => s.(word := Joined(s.word, w), workers := s.workers[w := Attached(s.workers[w].file)])
    case Leave(w) =>
      var left := Left(s.word, w);
      var t := s.(workers := s.workers[w := Away]);
      if left == COMPLETE then t.(word := Free, file := 0) else t.(word := left)
  }

  /** The file was not replaced between the worker's copy and its compare-and-swap. */
  predicate SameTurn(s: Slot, a: Step)
    requires Can(s, a)
  {
    a.Join? ==> s.workers[a.w].turn == |s.files|
  }

  ghost predicate PeekOk(s: Slot, x: Worker) {
    x.Peeked? ==> 1 <= x.turn <= |s.files| && x.file == s.files[x.turn - 1] && HasIo(x.word)
  }

  /** The slot's own file is the last it was given, and copies are of files it has held. */
  ghost predicate Inv(s: Slot) {
    && (s.word != Free ==> s.files != [] && s.file == s.files[|s.files| - 1])
    && (forall i, j | 0 <= i < j < |s.files| :: s.files[i] != s.files[j])
    && (forall w | 0 <= w < |s.workers| :: PeekOk(s, s.workers[w]))
  }

  /** Every attached worker works on the file that is in the slot, under its own bit. */
  ghost predicate Agreed(s: Slot) {
    forall w | 0 <= w < |s.workers| && s.workers[w].Attached? ::
      s.word.Open? && w in s.word.ids && s.workers[w].file == s.file
  }

  lemma StepKeeps(s: Slot, a: Step)
    requires Inv(s) && Can(s, a)
    ensures Inv(Do(s, a))
  {
    forall w | 0 <= w < |s.workers|
      ensures PeekOk(Do(s, a), Do(s, a).workers[w])
    {
      assert PeekOk(s, s.workers[w]);
    }
  }

  /** The copy that passes the compare-and-swap is of the file in the slot if and only if the slot
      was not emptied and filled again in between. */
  lemma CopyIsRightIff(s: Slot, w: nat)
    requires Inv(s) && Can(s, Join(w))
    ensures Do(s, Join(w)).workers[w].file == Do(s, Join(w)).file <==> SameTurn(s, Join(w))
  {
    assert PeekOk(s, s.workers[w]);
  }

  lemma AgreedKeeps(s: Slot, a: Step)
    requires Inv(s) && Agreed(s) && Can(s, a) && SameTurn(s, a)
    ensures Agreed(Do(s, a))
  {
    if a.Join? {
      CopyIsRightIff(s, a.w);
    }
    var s' := Do(s, a);
    forall v | 0 <= v < |s'.workers| && s'.workers[v].Attached?
      ensures s'.word.Open? && v in s'.word.ids && s'.workers[v].file == s'.file
    {
      if a.Leave? {
        assert v != a.w && v in Left(s.word, a.w).ids;
      }
    }
  }

  predicate Legal(s: Slot, run: seq<Step>)
    decreases |run|, 0
  {
    run == [] || (Legal(s, run[..|run| - 1]) && Can(Exec(s, run[..|run| - 1]), run[|run| - 1]))
  }

  function Exec(s: Slot, run: seq<Step>): Slot
    requires Legal(s, run)
    decreases |run|, 1
  {
    if run == [] then s else Do(Exec(s, run[..|run| - 1]), run[|run| - 1])
  }

  /** No compare-and-swap of the run is of a word copied in an earlier turn. */
  predicate Steady(s: Slot, run: seq<Step>)
    requires Legal(s, run)
    decreases |run|
  {
    run == [] || (Steady(s, run[..|run| - 1]) && SameTurn(Exec(s, run[..|run| - 1]), run[|run| - 1]))
  }

  lemma {:induction false} RunKeeps(n: nat, run: seq<Step>)
    requires Legal(Start(n), run)
    ensures Inv(Exec(Start(n), run))
    ensures Steady(Start(n), run) ==> Agreed(Exec(Start(n), run))
    decreases |run|
  {
    if run != [] {
      var s, a := Exec(Start(n), run[..|run| - 1]), run[|run| - 1];
      RunKeeps(n, run[..|run| - 1]);
      StepKeeps(s, a);
      if Steady(Start(n), run) {
        AgreedKeeps(s, a);
      }
    }
  }

  lemma Extend(s: Slot, run: seq<Step>, a: Step)
    requires Legal(s, run) && Can(Exec(s, run), a)
    ensures Legal(s, run + [a]) && Exec(s, run + [a]) == Do(Exec(s, run), a)
  {
    assert (run + [a])[..|run|] == run;
  }

  /** Two workers are enough: one copies the word of file 1, the other finishes that file and starts
      file 2 in the same slot, the word is the same again, and the first attaches with the record of
      file 1 to the slot of file 2. */
  lemma StaleCopyAttaches(n: nat) returns (run: seq<Step>)
    requires n >= 2
    ensures Legal(Start(n), run)
    ensures var s := Exec(Start(n), run);
            |s.workers| == n && s.workers[1] == Attached(1) && s.file == 2 && |s.files| == 2
  {
    var s := Start(n);
    run := [];
    Extend(s, run, Add(1));
    run := run + [Add(1)];
    Extend(s, run, First(0));
    run := run + [First(0)];
    Extend(s, run, Peek(1));
    run := run + [Peek(1)];
    Extend(s, run, Leave(0));
    run := run + [Leave(0)];
    Extend(s, run, Add(2));
    run := run + [Add(2)];
    Extend(s, run, First(0));
    run := run + [First(0)];
    Extend(s, run, Join(1));
    run := run + [Join(1)];
  }

  /** The assumption is needed exactly: with one worker every run is in agreement, and with two or
      more it takes runs without a stale compare-and-swap. */
  lemma AgreementIff(n: nat)
    ensures (forall run | Legal(Start(n), run) :: Agreed(Exec(Start(n), run))) <==> n <= 1
  {
    if n <= 1 {
      forall run | Legal(Start(n), run)
        ensures Agreed(Exec(Start(n), run))
      {
        Alone(n, run);
        RunKeeps(n, run);
      }
    } else {
      var run := StaleCopyAttaches(n);
      assert !Agreed(Exec(Start(n), run));
    }
  }

  /** With the number of files the slot has held: all runs with at most `k` of them are in agreement
      if and only if there is at most one worker or at most one file. */
  lemma AgreementUpToIff(n: nat, k: nat)
    ensures (forall run | Legal(Start(n), run) && |Exec(Start(n), run).files| <= k :: Agreed(Exec(Start(n), run)))
            <==> n <= 1 || k <= 1
  {
    if n <= 1 || k <= 1 {
      forall run | Legal(Start(n), run) && |Exec(Start(n), run).files| <= k
        ensures Agreed(Exec(Start(n), run))
      {
        if n <= 1 {
          Alone(n, run);
        } else {
          OneFileIsSteady(n, run);
        }
        RunKeeps(n, run);
      }
    } else {
      var run := StaleCopyAttaches(n);
      assert !Agreed(Exec(Start(n), run));
    }
  }

  lemma {:induction false} OneFileIsSteady(n: nat, run: seq<Step>)
    requires Legal(Start(n), run) && |Exec(Start(n), run).files| <= 1
    ensures Steady(Start(n), run)
    decreases |run|
  {
    if run != [] {
      var s, a := Exec(Start(n), run[..|run| - 1]), run[|run| - 1];
      OneFileIsSteady(n, run[..|run| - 1]);
      RunKeeps(n, run[..|run| - 1]);
      if a.Join? {
        assert PeekOk(s, s.workers[a.w]);
      }
    }
  }

  /** A lone worker never finds a file in progress that is not its own. */
  lemma {:induction false} Alone(n: nat, run: seq<Step>)
    requires n <= 1 && Legal(Start(n), run)
    ensures Steady(Start(n), run) && |Exec(Start(n), run).workers| == n
    ensures var s := Exec(Start(n), run); HasIo(s.word) ==> n == 1 && s.workers[0].Attached?
    ensures forall w | 0 <= w < n :: !Exec(Start(n), run).workers[w].Peeked?
    decreases |run|
  {
    if run != [] {
      Alone(n, run[..|run| - 1]);
    }
  }
}
