/** What the open-file table makes possible: insertions, first claims and wipes run to their end from
    every state in which they may begin. */
module TableLife {
  import opened Options
  import opened Probing
  import opened W = StateWord
  import opened FileTable
  import opened TableMap
  import opened FileStat

  ghost predicate Leads(s: Table, run: seq<Step>, e: Table) {
    Wf(s) && Legal(s, run) && Exec(s, run) == e
  }

  lemma Still(s: Table)
    requires Wf(s)
    ensures Leads(s, [], s)
  {
  }

  lemma OneMore(s: Table, run: seq<Step>, e: Table, a: Step)
    requires Leads(s, run, e) && Wf(e) && Can(e, a)
    ensures Leads(s, run + [a], Do(e, a)) && Wf(Do(e, a))
  {
    hide Can, Do;
    assert (run + [a])[..|run|] == run;
  }

  // ---- file_addfile ----

  /** State `s` with the record of thread `w` in its slot as far as lane `k`, stored from the top. */
  function PartStored(s: Table, w: nat, x: Slot, f: nat, rec: Rest, i: nat, k: nat): (r: Table)
    requires Wf(s) && w < |s.adders|
    ensures Wf(r)
  {
    var j := Probe(f, i);
    s.(slots := s.slots[j := x], adders := s.adders[w := Storing(f, rec, i, k)], claims := s.claims[j := w])
  }

  lemma StoresLane(s: Table, w: nat, x: Slot, f: nat, rec: Rest, i: nat, k: nat)
    requires Wf(s) && w < |s.adders| && k > 0
    ensures Can(PartStored(s, w, x, f, rec, i, k), Store(w))
    ensures Do(PartStored(s, w, x, f, rec, i, k), Store(w))
            == PartStored(s, w, Lane(x, Slot(Init, f, rec), k), f, rec, i, k - 1)
  {
    hide Probe, Lane;
    var j := Probe(f, i);
    assert s.slots[j := x][j := Lane(x, Slot(Init, f, rec), k)] == s.slots[j := Lane(x, Slot(Init, f, rec), k)];
  }

  /** Lanes 3, 2 and 1 of the record. */
  lemma StoresThree(s0: Table, run: seq<Step>, s: Table, w: nat, x: Slot, f: nat, rec: Rest, i: nat)
    returns (run': seq<Step>)
    requires Wf(s) && w < |s.adders| && Leads(s0, run, PartStored(s, w, x, f, rec, i, 3))
    ensures Leads(s0, run', PartStored(s, w, x.(rest := rec), f, rec, i, 0))
  {
    hide Leads, PartStored, Can, Do;
    var y := Slot(Init, f, rec);
    var x2 := Lane(x, y, 3);
    var x1 := Lane(x2, y, 2);
    assert Lane(x1, y, 1) == x.(rest := rec);
    StoresLane(s, w, x, f, rec, i, 3);
    OneMore(s0, run, PartStored(s, w, x, f, rec, i, 3), Store(w));
    StoresLane(s, w, x2, f, rec, i, 2);
    OneMore(s0, run + [Store(w)], PartStored(s, w, x2, f, rec, i, 2), Store(w));
    StoresLane(s, w, x1, f, rec, i, 1);
    OneMore(s0, run + [Store(w)] + [Store(w)], PartStored(s, w, x1, f, rec, i, 1), Store(w));
    run' := run + [Store(w)] + [Store(w)] + [Store(w)];
  }

  /** The record is in slot `j`, and nothing else in the table has changed. */
  ghost predicate Inserted(s: Table, e: Table, w: nat, j: nat, f: nat, rec: Rest) {
    && j < |s.slots| && w < |s.adders|
    && e.slots == s.slots[j := Slot(Init, f, rec)] && e.adders == s.adders[w := Added(f, j)]
    && e.live == s.live[f := j] && e.recs == s.recs[f := rec]
    && e.lookers == s.lookers && e.wiping == s.wiping && e.gone == s.gone && e.wins == s.wins
  }

  /** An insertion that comes to a free slot puts its whole record there. */
  lemma InsertsWhenFree(s0: Table, run: seq<Step>, s: Table, w: nat) returns (run': seq<Step>, e: Table)
    requires Leads(s0, run, s) && Wf(s) && w < |s.adders| && s.adders[w].Trying?
    requires s.slots[Probe(s.adders[w].f, s.adders[w].i)].word == Free
    ensures Leads(s0, run', e) && Wf(e)
    ensures var x := s.adders[w]; Inserted(s, e, w, Probe(x.f, x.i), x.f, x.rec)
  {
    hide Leads, Probe;
    var x := s.adders[w];
    var j := Probe(x.f, x.i);
    OneMore(s0, run, s, Take(w));
    var claimed := s.slots[j].(word := Claimed);
    assert Do(s, Take(w)) == PartStored(s, w, claimed, x.f, x.rec, x.i, 3);
    run' := StoresThree(s0, run + [Take(w)], s, w, claimed, x.f, x.rec, x.i);
    var t := PartStored(s, w, claimed.(rest := x.rec), x.f, x.rec, x.i, 0);
    OneMore(s0, run', t, Store(w));
    run', e := run' + [Store(w)], Do(t, Store(w));
    assert e.slots == s.slots[j := Slot(Init, x.f, x.rec)];
  }

  /** State `s` with thread `w` somewhere else in its loop. */
  function Adding(s: Table, w: nat, x: Adder): (r: Table)
    requires w < |s.adders|
    ensures r.slots == s.slots && r.adders == s.adders[w := x] && |r.adders| == |s.adders|
  {
    s.(adders := s.adders[w := x])
  }

  lemma Passes(s: Table, w: nat)
    requires Wf(s) && w < |s.adders| && s.adders[w].Trying?
    requires s.slots[Probe(s.adders[w].f, s.adders[w].i)].word != Free
    ensures Can(s, Pass(w)) && Do(s, Pass(w)) == Adding(s, w, Do(s, Pass(w)).adders[w])
    ensures var x, y := s.adders[w], Do(s, Pass(w)).adders[w];
            if x.i < 21 then y.Trying? && y.f == x.f && y.rec == x.rec && y.i == x.i + 1 else y.Refused? && y.f == x.f
  {
    hide Probe;
  }

  lemma InsertedElsewhere(s: Table, w: nat, y: Adder, e: Table, j: nat, f: nat, rec: Rest)
    requires w < |s.adders| && Inserted(Adding(s, w, y), e, w, j, f, rec)
    ensures Inserted(s, e, w, j, f, rec)
  {
  }

  /** Left to itself an insertion ends as the loop over the array does: in the first free slot of the
      rest of its walk, or refused if there is none. */
  lemma {:induction false} InsertEnds(s0: Table, run: seq<Step>, s: Table, w: nat) returns (run': seq<Step>, e: Table)
    requires Leads(s0, run, s) && Wf(s) && w < |s.adders| && s.adders[w].Trying? && s.adders[w].i < 22
    ensures Leads(s0, run', e) && Wf(e)
    ensures var x := s.adders[w];
            match FirstFree(s.slots, x.f, x.i)
            case Some(j) => Inserted(s, e, w, j, x.f, x.rec)
            case None => Refuses(s, e, w, x.f)
    decreases 22 - s.adders[w].i
  {
    hide Leads, Probe, Inserted, Can, Do, Adding;
    var x := s.adders[w];
    if s.slots[Probe(x.f, x.i)].word == Free {
      run', e := InsertsWhenFree(s0, run, s, w);
    } else {
      Passes(s, w);
      OneMore(s0, run, s, Pass(w));
      var t := Do(s, Pass(w));
      run', e := run + [Pass(w)], t;
      if x.i < 21 {
        run', e := InsertEnds(s0, run', t, w);
        var r := FirstFree(s.slots, x.f, x.i);
        if r.Some? {
          InsertedElsewhere(s, w, t.adders[w], e, r.value, x.f, x.rec);
        } else {
          RefusedElsewhere(s, w, t.adders[w], e, x.f);
        }
      }
    }
  }

  /** Thread `w` has been refused, and nothing else has changed. */
  ghost predicate Refuses(s: Table, e: Table, w: nat, f: nat) {
    && w < |s.adders| == |e.adders| && e.adders[w].Refused? && e.adders[w].f == f
    && e == Adding(s, w, e.adders[w])
  }

  lemma RefusedElsewhere(s: Table, w: nat, y: Adder, e: Table, f: nat)
    requires w < |s.adders| && Refuses(Adding(s, w, y), e, w, f)
    ensures Refuses(s, e, w, f)
  {
  }

  // ---- A lookup ----

  /** State `s` with thread `v` somewhere else in its walk. */
  function Looking(s: Table, v: nat, x: Looker): (r: Table)
    requires v < |s.lookers|
    ensures r.slots == s.slots && r.lookers == s.lookers[v := x] && |r.lookers| == |s.lookers|
  {
    s.(lookers := s.lookers[v := x])
  }

  lemma LooksElsewhere(s: Table, v: nat, x: Looker, y: Looker)
    requires v < |s.lookers|
    ensures Looking(Looking(s, v, x), v, y) == Looking(s, v, y)
  {
  }

  /** The looker after the first lane of the slot it stands at. */
  function Began(s: Table, x: Looker): (r: Looker)
    requires Wf(s) && x.Walking?
    ensures r.Loading?
  {
    var y := s.slots[Probe(x.f, x.i)];
    Loading(x.f, x.i, x.sure, x.met || y.file == x.f, Lane(ZERO, y, 0), 1)
  }

  lemma Begins(s: Table, v: nat)
    requires Wf(s) && v < |s.lookers| && s.lookers[v].Walking?
    ensures Can(s, Load(v)) && Do(s, Load(v)) == Looking(s, v, Began(s, s.lookers[v]))
  {
    hide Probe;
  }

  lemma Settles(s: Table, v: nat, x: Looker)
    requires Wf(s) && v < |s.lookers| && x.Loading? && x.snap.file == x.f
    ensures Can(Looking(s, v, x), Settle(v))
    ensures Do(Looking(s, v, x), Settle(v)) == Looking(s, v, Found(x.f, Probe(x.f, x.i)))
  {
    hide Probe;
  }

  lemma WalksOn(s: Table, v: nat, x: Looker)
    requires Wf(s) && v < |s.lookers| && x.Loading?
    ensures Can(Looking(s, v, x), Next(v))
    ensures Do(Looking(s, v, x), Next(v))
            == Looking(s, v, if x.i < 21 then Walking(x.f, x.i + 1, x.sure, x.met) else Missed(x.f, x.sure, x.met))
  {
  }

  /** How a lookup ends: with the slot of the file, or without one. */
  predicate EndsAs(y: Looker, f: nat, r: Option<nat>) {
    match r
    case Some(j) => y == Found(f, j)
    case None => y.Missed? && y.f == f
  }

  /** Left to itself a lookup ends as the loop over the array does: at the first slot of the rest of its
      walk that carries the number, or without one. */
  lemma {:induction false} LookupEnds(s0: Table, run: seq<Step>, s: Table, v: nat, x: Looker)
    returns (run': seq<Step>, y: Looker)
    requires Wf(s) && v < |s.lookers| && Leads(s0, run, Looking(s, v, x)) && x.Walking? && x.i < 22
    ensures Leads(s0, run', Looking(s, v, y)) && EndsAs(y, x.f, Find(s.slots, x.f, x.i))
    decreases 22 - x.i
  {
    hide Leads, Probe, Can, Do, Looking;
    var t, b := Looking(s, v, x), Began(s, x);
    Begins(t, v);
    LooksElsewhere(s, v, x, b);
    OneMore(s0, run, t, Load(v));
    if s.slots[Probe(x.f, x.i)].file == x.f {
      Settles(s, v, b);
      OneMore(s0, run + [Load(v)], Looking(s, v, b), Settle(v));
      run', y := run + [Load(v)] + [Settle(v)], Found(x.f, Probe(x.f, x.i));
    } else {
      WalksOn(s, v, b);
      OneMore(s0, run + [Load(v)], Looking(s, v, b), Next(v));
      run', y := run + [Load(v)] + [Next(v)], Missed(x.f, b.sure, b.met);
      if x.i < 21 {
        run', y := LookupEnds(s0, run', s, v, Walking(x.f, x.i + 1, b.sure, b.met));
      }
    }
  }

  // ---- The first claim ----

  lemma LoadsLane(s: Table, v: nat, x: Looker)
    requires Wf(s) && v < |s.lookers| && x.Loading? && x.k < 4
    ensures Can(Looking(s, v, x), Load(v))
    ensures Do(Looking(s, v, x), Load(v))
            == Looking(s, v, x.(snap := Lane(x.snap, s.slots[Probe(x.f, x.i)], x.k), k := x.k + 1))
  {
    hide Probe, Lane;
  }

  /** A walk can copy the whole record of the slot it stands at. */
  lemma LoadsAll(s0: Table, run: seq<Step>, s: Table, v: nat) returns (run': seq<Step>, x: Looker)
    requires Leads(s0, run, s) && Wf(s) && v < |s.lookers| && s.lookers[v].Walking?
    ensures Leads(s0, run', Looking(s, v, x))
    ensures x.Loading? && x.f == s.lookers[v].f && x.i == s.lookers[v].i
    ensures x.snap == s.slots[Probe(x.f, x.i)] && x.k == 4
  {
    hide Leads, Probe, Can, Do, Looking;
    var y := s.slots[Probe(s.lookers[v].f, s.lookers[v].i)];
    var x1 := Began(s, s.lookers[v]);
    var x2 := x1.(snap := Lane(x1.snap, y, 1), k := 2);
    var x3 := x2.(snap := Lane(x2.snap, y, 2), k := 3);
    Begins(s, v);
    OneMore(s0, run, s, Load(v));
    LoadsLane(s, v, x1);
    OneMore(s0, run + [Load(v)], Looking(s, v, x1), Load(v));
    LoadsLane(s, v, x2);
    OneMore(s0, run + [Load(v)] + [Load(v)], Looking(s, v, x2), Load(v));
    LoadsLane(s, v, x3);
    OneMore(s0, run + [Load(v)] + [Load(v)] + [Load(v)], Looking(s, v, x3), Load(v));
    run' := run + [Load(v)] + [Load(v)] + [Load(v)] + [Load(v)];
    x := x3.(snap := Lane(x3.snap, y, 3), k := 4);
    assert x.snap == y;
  }

  /** Worker `v` holds the record, and the slot is open for the workers `ids`. */
  ghost predicate Taken(s: Table, e: Table, v: nat, j: nat, f: nat, rec: Rest, ids: set<nat>) {
    && j < |s.slots| && v < |s.lookers|
    && e.slots == s.slots[j := Slot(Open(true, ids), f, rec)]
    && e.lookers == s.lookers[v := Won(f, j, Slot(Init, f, rec))] && e.wins == s.wins[f := Slot(Init, f, rec)]
    && e.live == s.live && e.wiping == s.wiping && e.gone == s.gone && e.adders == s.adders
  }

  /** A walk that comes to the initial record of its file wins it. */
  lemma ClaimsFirst(s0: Table, run: seq<Step>, s: Table, v: nat, ids: set<nat>) returns (run': seq<Step>, e: Table)
    requires Leads(s0, run, s) && Wf(s) && v < |s.lookers| && s.lookers[v].Walking?
    requires var y := s.slots[Probe(s.lookers[v].f, s.lookers[v].i)]; y.word == Init && y.file == s.lookers[v].f
    ensures Leads(s0, run', e) && Wf(e)
    ensures var x := s.lookers[v];
            var j := Probe(x.f, x.i);
            Taken(s, e, v, j, x.f, s.slots[j].rest, ids)
  {
    hide Leads, Probe;
    var x;
    run', x := LoadsAll(s0, run, s, v);
    var t := Looking(s, v, x);
    OneMore(s0, run', t, Win(v, ids));
    run', e := run' + [Win(v, ids)], Do(t, Win(v, ids));
  }

  // ---- memset ----

  function Wiping(s: Table, f: nat, j: nat, x: Slot, k: nat): Table
    requires Wf(s) && j < 2048
  {
    s.(slots := s.slots[j := x], gone := s.gone + {f}, wiping := s.wiping[f := k])
  }

  lemma ZeroesLane(s: Table, f: nat, j: nat, x: Slot, k: nat)
    requires Wf(s) && f in s.live && s.live[f] == j < 2048 && k > 0
    ensures Can(Wiping(s, f, j, x, k), Zero(f))
    ensures Do(Wiping(s, f, j, x, k), Zero(f)) == Wiping(s, f, j, Lane(x, ZERO, k), k - 1)
  {
    hide Lane;
  }

  /** A wipe frees the slot: every lane is zero, and the file is gone. */
  lemma WipesClean(s0: Table, run: seq<Step>, s: Table, f: nat) returns (run': seq<Step>, e: Table)
    requires Leads(s0, run, s) && Wf(s) && f in s.live && s.live[f] < 2048 && f !in s.gone
    requires forall v | 0 <= v < |s.lookers| :: !Searching(s.lookers[v], f)
    ensures Leads(s0, run', e) && Wf(e)
    ensures e.slots == s.slots[s.live[f] := ZERO] && e.live == s.live - {f} && e.gone == s.gone + {f}
    ensures e.wins == s.wins
  {
    hide Leads;
    var j := s.live[f];
    var x3 := s.slots[j];
    var x2 := Lane(x3, ZERO, 3);
    var x1 := Lane(x2, ZERO, 2);
    OneMore(s0, run, s, Wipe(f));
    assert s.slots[j := x3] == s.slots;
    assert Do(s, Wipe(f)) == Wiping(s, f, j, x3, 3);
    ZeroesLane(s, f, j, x3, 3);
    OneMore(s0, run + [Wipe(f)], Wiping(s, f, j, x3, 3), Zero(f));
    ZeroesLane(s, f, j, x2, 2);
    OneMore(s0, run + [Wipe(f)] + [Zero(f)], Wiping(s, f, j, x2, 2), Zero(f));
    ZeroesLane(s, f, j, x1, 1);
    OneMore(s0, run + [Wipe(f)] + [Zero(f)] + [Zero(f)], Wiping(s, f, j, x1, 1), Zero(f));
    var t := Wiping(s, f, j, Lane(x1, ZERO, 1), 0);
    OneMore(s0, run + [Wipe(f)] + [Zero(f)] + [Zero(f)] + [Zero(f)], t, Zero(f));
    run', e := run + [Wipe(f)] + [Zero(f)] + [Zero(f)] + [Zero(f)] + [Zero(f)], Do(t, Zero(f));
    assert e.slots == s.slots[j := ZERO];
  }

  // ---- A whole life ----

  /** Any file can be added to a new table, won with exactly its record, and wiped, after which the
      table is as empty as before. */
  lemma OneLife(n: nat, m: nat, f: nat, rec: Rest, ids: set<nat>) returns (run: seq<Step>, e: Table)
    requires n > 0 && m > 0 && f > 0
    ensures Leads(Start(n, m), run, e) && e.slots == Start(n, m).slots
    ensures f in e.gone && f in e.wins && e.wins[f] == Slot(Init, f, rec)
  {
    hide Leads, Probe;
    var s0 := Start(n, m);
    var j := Probe(f, 0);
    Still(s0);
    OneMore(s0, [], s0, Begin(0, f, rec));
    var s := Do(s0, Begin(0, f, rec));
    run, s := InsertsWhenFree(s0, [] + [Begin(0, f, rec)], s, 0);
    OneMore(s0, run, s, Look(0, f));
    run, s := run + [Look(0, f)], Do(s, Look(0, f));
    run, s := ClaimsFirst(s0, run, s, 0, ids);
    run, e := WipesClean(s0, run, s, f);
    assert e.slots == s0.slots[j := ZERO];
  }
}
