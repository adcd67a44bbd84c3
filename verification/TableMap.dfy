/** What the open-file table promises in every run: it is a finite map from file numbers to
    records, under concurrent insertions, lookups and deletions. */
module TableMap {
  import opened Options
  import opened W = StateWord
  import opened Probing
  import opened FileTable
  import opened TableSteps

  // ---- Runs ----

  predicate Legal(s: Table, run: seq<Step>)
    requires Wf(s)
    decreases |run|, 0
  {
    run == [] || (Legal(s, run[..|run| - 1]) && Can(Exec(s, run[..|run| - 1]), run[|run| - 1]))
  }

  function Exec(s: Table, run: seq<Step>): (r: Table)
    requires Wf(s) && Legal(s, run)
    ensures Wf(r)
    decreases |run|, 1
  {
    if run == [] then s else Do(Exec(s, run[..|run| - 1]), run[|run| - 1])
  }

  lemma {:induction false} RunKeeps(n: nat, m: nat, run: seq<Step>)
    requires Legal(Start(n, m), run)
    ensures Inv(Exec(Start(n, m), run))
    decreases |run|
  {
    if run == [] {
      StartOk(n, m);
    } else {
      hide Inv;
      RunKeeps(n, m, run[..|run| - 1]);
      StepKeeps(Exec(Start(n, m), run[..|run| - 1]), run[|run| - 1]);
    }
  }

  lemma StartOk(n: nat, m: nat)
    ensures Inv(Start(n, m))
  {
  }

  /** Some run of `n` inserting and `m` looking threads leads to this state. */
  ghost predicate Reachable(n: nat, m: nat, s: Table) {
    exists run :: Legal(Start(n, m), run) && s == Exec(Start(n, m), run)
  }

  lemma ReachableOk(n: nat, m: nat, s: Table)
    requires Reachable(n, m, s)
    ensures Inv(s)
  {
    hide Inv;
    var run :| Legal(Start(n, m), run) && s == Exec(Start(n, m), run);
    RunKeeps(n, m, run);
  }

  // ---- What the table promises ----

  /** What a lookup walk from round `i` on meets in a table that stands still. */
  function Find(slots: seq<Slot>, f: nat, i: nat): Option<nat>
    requires |slots| == 2048
    decreases 22 - i
  {
    if i >= 22 then None
    else if slots[Probe(f, i)].file == f then Some(Probe(f, i))
    else Find(slots, f, i + 1)
  }

  lemma {:induction false} FindMeets(s: Table, f: nat, i: nat)
    requires Inv(s) && f > 0
    ensures f !in s.live ==> Find(s.slots, f, i) == None
    ensures f in s.live && i <= s.index[f] ==> Find(s.slots, f, i) == Some(s.live[f])
    decreases 22 - i
  {
    hide Probe;
    if f in s.live {
      assert LiveOk(s, f);
    }
    if i < 22 {
      assert SlotOk(s, Probe(f, i));
      FindMeets(s, f, i + 1);
    }
  }

  lemma FindIsLive(s: Table, f: nat)
    requires Inv(s) && f > 0
    ensures Find(s.slots, f, 0) == if f in s.live then Some(s.live[f]) else None
  {
    hide Probe;
    FindMeets(s, f, 0);
    if f in s.live {
      assert LiveOk(s, f);
    }
  }

  /** The table is a finite map: in every reachable state the probe walk finds exactly the files
      that were stored and not yet wiped, each in its own slot. */
  lemma TableIsMap(n: nat, m: nat, s: Table, f: nat)
    requires Reachable(n, m, s) && f > 0
    ensures |s.slots| == 2048 && Find(s.slots, f, 0) == if f in s.live then Some(s.live[f]) else None
  {
    hide Reachable, Probe;
    ReachableOk(n, m, s);
    FindIsLive(s, f);
  }

  /** The step is the last lane of the insertion, or of the wiping, of file `f` itself. */
  predicate MovesFile(s: Table, a: Step, f: nat)
    requires Wf(s) && Can(s, a)
  {
    || (a.Store? && s.adders[a.w].k == 0 && s.adders[a.w].f == f)
    || (a.Zero? && a.f == f && s.wiping[f] == 0)
  }

  lemma LiveStays(s: Table, a: Step, f: nat)
    requires Wf(s) && Can(s, a) && !MovesFile(s, a, f)
    ensures f in Do(s, a).live <==> f in s.live
    ensures f in s.live ==> Do(s, a).live[f] == s.live[f]
  {
    if a.Store? {
      hide Probe, Lane;
    } else if a.Zero? {
      hide Probe, Lane;
    } else {
      LiveSame(s, a);
    }
  }

  lemma LiveSame(s: Table, a: Step)
    requires Wf(s) && Can(s, a) && !a.Store? && !a.Zero?
    ensures Do(s, a).live == s.live
  {
    hide Probe, Lane, CanWin, Searching;
  }

  /** No other step changes what any lookup of the file finds: wiping one entry hides no other. */
  lemma OnlyOwnStepsMove(s: Table, a: Step, f: nat)
    requires Inv(s) && Can(s, a) && f > 0 && !MovesFile(s, a, f)
    ensures Find(Do(s, a).slots, f, 0) == Find(s.slots, f, 0)
  {
    StepKeeps(s, a);
    FindIsLive(s, f);
    LiveStays(s, a, f);
    hide Inv, Do, Find;
    FindIsLive(Do(s, a), f);
  }

  /** Two insertions never share a slot, and none is made into a slot that holds a file. */
  lemma InsertsAreDisjoint(n: nat, m: nat, s: Table, w: nat, x: nat)
    requires Reachable(n, m, s)
    requires w < |s.adders| && s.adders[w].Storing? && x < |s.adders| && s.adders[x].Storing? && w != x
    ensures Probe(s.adders[w].f, s.adders[w].i) != Probe(s.adders[x].f, s.adders[x].i)
    ensures forall f | f in s.live :: s.live[f] != Probe(s.adders[w].f, s.adders[w].i)
  {
    hide Probe, Reachable;
    ReachableOk(n, m, s);
    assert AdderOk(s, w) && AdderOk(s, x);
    forall f | f in s.live
      ensures s.live[f] != Probe(s.adders[w].f, s.adders[w].i)
    {
      assert LiveOk(s, f);
    }
  }

  /** An insertion is refused only after each of the 22 slots on its walk was seen occupied. */
  lemma RefusedOnlyWhenBusy(n: nat, m: nat, s: Table, w: nat)
    requires Reachable(n, m, s) && w < |s.adders| && s.adders[w].Refused?
    ensures |s.adders[w].busy| == 22
    ensures forall i | 0 <= i < 22 ::
              s.adders[w].busy[i].slot == Probe(s.adders[w].f, i) && s.adders[w].busy[i].word != Free
  {
    hide Probe, Reachable;
    ReachableOk(n, m, s);
    assert AdderOk(s, w);
  }

  /** A walk that began while the file was in the table does not end without meeting it. */
  lemma SureWalksMeet(n: nat, m: nat, s: Table, v: nat)
    requires Reachable(n, m, s) && v < |s.lookers| && s.lookers[v].Missed? && s.lookers[v].sure
    ensures s.lookers[v].met
  {
    hide Probe, Reachable;
    ReachableOk(n, m, s);
    assert LookerOk(s, v);
  }

  /** What a lookup settles for is the file's own slot. */
  lemma SettledSlotIsRight(n: nat, m: nat, s: Table, v: nat)
    requires Reachable(n, m, s) && v < |s.lookers| && s.lookers[v].Loading? && s.lookers[v].snap.file == s.lookers[v].f
    ensures s.lookers[v].f in s.live && s.live[s.lookers[v].f] == Probe(s.lookers[v].f, s.lookers[v].i)
  {
    hide Probe, Reachable;
    ReachableOk(n, m, s);
    assert LookerOk(s, v);
  }

  /** Torn reads never get through: whoever wins the first claim of a file holds, in all four
      lanes, exactly the record that was added, and a slot is free only with all lanes zero. */
  lemma FirstClaimIsWhole(n: nat, m: nat, s: Table)
    requires Reachable(n, m, s)
    ensures forall f | f in s.wins :: f in s.recs && s.wins[f] == Slot(Init, f, s.recs[f])
    ensures forall j | 0 <= j < |s.slots| && s.slots[j].word == Free :: s.slots[j] == ZERO
  {
    hide Probe, Reachable;
    ReachableOk(n, m, s);
    forall f | f in s.wins
      ensures f in s.recs && s.wins[f] == Slot(Init, f, s.recs[f])
    {
      assert WinOk(s, f);
    }
    forall j | 0 <= j < |s.slots| && s.slots[j].word == Free
      ensures s.slots[j] == ZERO
    {
      assert SlotOk(s, j);
    }
  }

  /** A file is claimed for the first time at most once. */
  lemma FirstClaimIsUnique(n: nat, m: nat, s: Table, v: nat)
    requires Reachable(n, m, s) && Wf(s) && CanWin(s, v)
    ensures s.lookers[v].f !in s.wins
  {
    hide Probe, Reachable;
    ReachableOk(n, m, s);
    assert LookerOk(s, v) && LiveOk(s, s.lookers[v].f);
  }

  /** File number 0 would break the map: a lookup of 0 finds any slot on its walk that is free. */
  lemma ZeroIsFoundInEmptyTable(n: nat, m: nat)
    ensures Find(Start(n, m).slots, 0, 0).Some?
  {
  }
}
