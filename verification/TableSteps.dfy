/** Every step of every thread keeps the open-file table in order. */
module TableSteps {
  import opened Probing
  import opened W = StateWord
  import opened FileTable

  /** A lookup moves on and touches nothing shared. */
  lemma LookerMoves(s: Table, v: nat, x: Looker)
    requires Inv(s) && v < |s.lookers|
    requires LookerOk(s.(lookers := s.lookers[v := x]), v)
    ensures Inv(s.(lookers := s.lookers[v := x]))
  {
    hide Probe;
    var s' := s.(lookers := s.lookers[v := x]);
    forall j | 0 <= j < 2048
      ensures SlotOk(s', j)
    {
      assert SlotOk(s, j);
    }
    forall f | f in s.live
      ensures LiveOk(s', f)
    {
      assert LiveOk(s, f);
    }
    forall w | 0 <= w < |s.adders|
      ensures AdderOk(s', w)
    {
      assert AdderOk(s, w);
    }
    forall u | 0 <= u < |s.lookers|
      ensures LookerOk(s', u)
    {
      assert LookerOk(s, u);
    }
    forall f | f in s.wins
      ensures WinOk(s', f)
    {
      assert WinOk(s, f);
    }
  }

  lemma LookKeeps(s: Table, v: nat, f: nat)
    requires Inv(s) && Can(s, Look(v, f))
    ensures Inv(DoLook(s, v, f))
  {
    hide Probe;
    if f in s.live {
      assert LiveOk(s, f);
    }
    LookerMoves(s, v, DoLook(s, v, f).lookers[v]);
  }

  lemma LoadKeeps(s: Table, v: nat)
    requires Inv(s) && Can(s, Load(v))
    ensures Inv(DoLoad(s, v))
  {
    hide Probe;
    var f, i := s.lookers[v].f, s.lookers[v].i;
    assert LookerOk(s, v) && SlotOk(s, Probe(f, i));
    if f in s.live {
      assert LiveOk(s, f);
    }
    LookerMoves(s, v, DoLoad(s, v).lookers[v]);
  }

  lemma NextKeeps(s: Table, v: nat)
    requires Inv(s) && Can(s, Next(v))
    ensures Inv(DoNext(s, v))
  {
    hide Probe;
    assert LookerOk(s, v);
    if s.lookers[v].f in s.live {
      assert LiveOk(s, s.lookers[v].f);
    }
    LookerMoves(s, v, DoNext(s, v).lookers[v]);
  }

  predicate Busy(x: Adder, f: nat) { (x.Trying? || x.Storing? || x.Refused?) && x.f == f }

  /** A step on slot `j` and file `g`, by inserting thread `b` and looking thread `u` if there are
      such: nothing is different for any other slot, file or thread. */
  ghost predicate OneFile(s: Table, s': Table, j: nat, g: nat, b: nat, u: nat) {
    && Wf(s) && Wf(s') && j < 2048 && s'.slots == s.slots[j := s'.slots[j]]
    && |s'.adders| == |s.adders| && (forall w | 0 <= w < |s.adders| && w != b :: s'.adders[w] == s.adders[w])
    && |s'.lookers| == |s.lookers| && (forall v | 0 <= v < |s.lookers| && v != u :: s'.lookers[v] == s.lookers[v])
    && s'.live - {g} == s.live - {g} && s'.index - {g} == s.index - {g} && s'.recs - {g} == s.recs - {g}
    && s'.wiping - {g} == s.wiping - {g} && s'.wins - {g} == s.wins - {g} && s'.pending - {g} == s.pending - {g}
    && s'.gone - {g} == s.gone - {g} && s'.ever - {g} == s.ever - {g} && s'.claims - {j} == s.claims - {j}
    && ((s'.slots == s.slots && s'.claims == s.claims) ||
        ((s.slots[j].file == g || s.slots[j].file == 0) &&
         (s.slots[j].word == Claimed ==> j in s.claims && s.claims[j] == b)))
  }

  lemma OtherLive(s: Table, s': Table, j: nat, g: nat, b: nat, u: nat, f: nat)
    requires OneFile(s, s', j, g, b, u) && f != g && f in s.live && LiveOk(s, f)
    ensures f in s'.live && LiveOk(s', f)
  {
    hide Probe;
    assert f in s.live - {g} && f in s.index - {g} && f in s.recs - {g} && f in s.ever - {g};
    assert f in s'.live - {g} && f in s'.index - {g} && f in s'.recs - {g} && f in s'.ever - {g};
    assert (f in s.gone - {g} <==> f in s'.gone - {g}) && (f in s.wins - {g} <==> f in s'.wins - {g});
    assert f in s.wiping - {g} <==> f in s'.wiping - {g};
  }

  lemma OtherSlot(s: Table, s': Table, j: nat, g: nat, b: nat, u: nat, i: nat)
    requires OneFile(s, s', j, g, b, u) && i < 2048 && i != j && SlotOk(s, i)
    requires s.slots[i].file == g ==> SlotOk(s', i)
    ensures SlotOk(s', i)
  {
    var f := s.slots[i].file;
    assert f != g ==> (f in s.live - {g} <==> f in s'.live - {g});
  }

  lemma OtherAdder(s: Table, s': Table, j: nat, g: nat, b: nat, u: nat, w: nat)
    requires OneFile(s, s', j, g, b, u) && w < |s.adders| && w != b && AdderOk(s, w) && !Busy(s.adders[w], g)
    ensures AdderOk(s', w)
  {
    hide Probe;
    var x := s.adders[w];
    if x.Trying? || x.Storing? || x.Refused? {
      var f := x.f;
      assert f in s.ever - {g} && f in s'.ever - {g} && f in s.pending - {g} && f in s'.pending - {g};
      assert (f in s.live - {g} <==> f in s'.live - {g}) && (f in s.gone - {g} <==> f in s'.gone - {g});
      assert f in s.wins - {g} <==> f in s'.wins - {g};
      if x.Storing? && Probe(f, x.i) != j {
        assert Probe(f, x.i) in s.claims - {j} && Probe(f, x.i) in s'.claims - {j};
      }
    }
  }

  lemma OtherLooker(s: Table, s': Table, j: nat, g: nat, b: nat, u: nat, v: nat)
    requires OneFile(s, s', j, g, b, u) && v < |s.lookers| && v != u && LookerOk(s, v)
    requires Searching(s.lookers[v], g) ==> LookerOk(s', v)
    requires forall f | f in s.live && Searching(s.lookers[v], f) :: LiveOk(s, f)
    ensures LookerOk(s', v)
  {
    hide Probe;
    var x := s.lookers[v];
    if (x.Walking? || x.Loading?) && x.f != g {
      assert x.f in s.gone - {g} <==> x.f in s'.gone - {g};
      if x.f in s.live {
        OtherLive(s, s', j, g, b, u, x.f);
        assert x.f in s.live - {g} && x.f in s.index - {g} && x.f in s.recs - {g};
      }
    }
  }

  /** A step on one slot and one file that leaves these two and its own threads in order keeps the
      whole invariant. */
  lemma OneFileKeeps(s: Table, s': Table, j: nat, g: nat, b: nat, u: nat)
    requires Inv(s) && OneFile(s, s', j, g, b, u)
    requires HistoryOk(s') && SlotOk(s', j)
    requires forall i | 0 <= i < 2048 && i != j && s.slots[i].file == g :: SlotOk(s', i)
    requires g in s'.live ==> LiveOk(s', g)
    requires g in s'.wins ==> WinOk(s', g)
    requires g in s.live || g !in s.ever || (g in s.pending && s.pending[g] == b)
    requires b < |s.adders| ==> AdderOk(s', b)
    requires u < |s.lookers| ==> LookerOk(s', u)
    requires forall v | 0 <= v < |s.lookers| && v != u && Searching(s.lookers[v], g) :: LookerOk(s', v)
    ensures Inv(s')
  {
    hide Probe, LanesZero, LanesAre, SnapIs, AllBusy;
    forall i | 0 <= i < 2048
      ensures SlotOk(s', i)
    {
      if i != j {
        OtherSlot(s, s', j, g, b, u, i);
      }
    }
    forall f | f in s'.live
      ensures LiveOk(s', f)
    {
      if f != g {
        assert f in s'.live - {g} && f in s.live - {g};
        OtherLive(s, s', j, g, b, u, f);
      }
    }
    forall w | 0 <= w < |s'.adders|
      ensures AdderOk(s', w)
    {
      assert AdderOk(s, w);
      if w != b {
        OtherAdder(s, s', j, g, b, u, w);
      }
    }
    forall v | 0 <= v < |s'.lookers|
      ensures LookerOk(s', v)
    {
      assert LookerOk(s, v);
      if v != u {
        OtherLooker(s, s', j, g, b, u, v);
      }
    }
    forall f | f in s'.wins
      ensures WinOk(s', f)
    {
      if f != g {
        assert f in s'.wins - {g} && f in s.wins - {g} && WinOk(s, f);
        assert f in s.recs - {g} && f in s'.recs - {g};
      }
    }
  }

  /** A number that is not in the table is in no slot, and no walk has met it. */
  lemma Absent(s: Table, s': Table, g: nat)
    requires Inv(s) && g > 0 && g !in s.live && Wf(s') && s'.lookers == s.lookers && g !in s'.gone
    ensures forall i | 0 <= i < 2048 :: s.slots[i].file != g
    ensures forall v | 0 <= v < |s.lookers| && Searching(s.lookers[v], g) :: LookerOk(s', v)
    ensures g !in s.wiping
  {
    hide Probe;
    forall i | 0 <= i < 2048
      ensures s.slots[i].file != g
    {
      assert SlotOk(s, i);
    }
    forall v | 0 <= v < |s.lookers| && Searching(s.lookers[v], g)
      ensures LookerOk(s', v)
    {
      assert LookerOk(s, v);
    }
  }

  lemma FreshNumber(s: Table, g: nat)
    requires Inv(s) && g !in s.ever
    ensures g !in s.live && g !in s.gone && g !in s.wins && g !in s.recs && g !in s.pending
  {
    hide Probe;
    assert g in s.live ==> LiveOk(s, g);
  }

  lemma BeginKeeps(s: Table, b: nat, g: nat, rec: Rest)
    requires Inv(s) && Can(s, Begin(b, g, rec))
    ensures Inv(DoBegin(s, b, g, rec))
  {
    hide Probe;
    var s' := DoBegin(s, b, g, rec);
    FreshNumber(s, g);
    Absent(s, s', g);
    assert SlotOk(s, 0);
    hide LookerOk, LiveOk;
    OneFileKeeps(s, s', 0, g, b, |s.lookers|);
  }

  /** The thread inserting a file moves on and touches no slot. */
  lemma AdderMoves(s: Table, b: nat, x: Adder)
    requires Inv(s) && b < |s.adders| && (s.adders[b].Trying? || s.adders[b].Refused?)
    requires AdderOk(s.(adders := s.adders[b := x]), b)
    ensures Inv(s.(adders := s.adders[b := x]))
  {
    hide Probe;
    var s', g := s.(adders := s.adders[b := x]), s.adders[b].f;
    assert AdderOk(s, b) && SlotOk(s, 0);
    Absent(s, s', g);
    hide LookerOk, LiveOk;
    OneFileKeeps(s, s', 0, g, b, |s.lookers|);
  }

  lemma PassKeeps(s: Table, b: nat)
    requires Inv(s) && Can(s, Pass(b))
    ensures Inv(DoPass(s, b))
  {
    hide Probe;
    assert AdderOk(s, b);
    AdderMoves(s, b, DoPass(s, b).adders[b]);
  }

  lemma TakeKeeps(s: Table, b: nat)
    requires Inv(s) && Can(s, Take(b))
    ensures Inv(DoTake(s, b))
  {
    hide Probe;
    var x, s' := s.adders[b], DoTake(s, b);
    assert AdderOk(s, b) && SlotOk(s, Probe(x.f, x.i));
    Absent(s, s', x.f);
    hide LookerOk, LiveOk;
    OneFileKeeps(s, s', Probe(x.f, x.i), x.f, b, |s.lookers|);
  }

  lemma StoreLaneKeeps(s: Table, b: nat)
    requires Inv(s) && Can(s, Store(b)) && s.adders[b].k > 0
    ensures Inv(StoreLane(s, b))
  {
    hide Probe;
    var x, s' := s.adders[b], StoreLane(s, b);
    assert AdderOk(s, b) && SlotOk(s, Probe(x.f, x.i));
    Absent(s, s', x.f);
    hide LookerOk, LiveOk;
    OneFileKeeps(s, s', Probe(x.f, x.i), x.f, b, |s.lookers|);
  }

  lemma StoreLastKeeps(s: Table, b: nat)
    requires Inv(s) && Can(s, Store(b)) && s.adders[b].k == 0
    ensures Inv(StoreLast(s, b))
  {
    hide Probe;
    var x, s' := s.adders[b], StoreLast(s, b);
    assert AdderOk(s, b) && SlotOk(s, Probe(x.f, x.i));
    Absent(s, s', x.f);
    OneFileKeeps(s, s', Probe(x.f, x.i), x.f, b, |s.lookers|);
  }

  /** A file in the table has one slot, and its number is nowhere else. */
  lemma OneSlot(s: Table, g: nat)
    requires Inv(s) && g in s.live
    ensures LiveOk(s, g) && forall i | 0 <= i < 2048 && i != s.live[g] :: s.slots[i].file != g
  {
    hide Probe;
    assert LiveOk(s, g);
    forall i | 0 <= i < 2048 && i != s.live[g]
      ensures s.slots[i].file != g
    {
      assert SlotOk(s, i);
    }
  }

  /** Once a file is claimed, the snapshots of the others who look it up no longer matter. */
  lemma OpenLooker(s: Table, s': Table, g: nat, v: nat)
    requires Wf(s) && Wf(s') && v < |s.lookers| && v < |s'.lookers| && s'.lookers[v] == s.lookers[v]
    requires LookerOk(s, v) && g in s.live && Searching(s.lookers[v], g)
    requires s'.live == s.live && s'.index == s.index && s'.recs == s.recs && s'.gone == s.gone
    requires s.live[g] < 2048 && s'.slots[s.live[g]].word.Open?
    ensures LookerOk(s', v)
  {
    hide Probe;
  }

  lemma WinKeeps(s: Table, u: nat, ids: set<nat>)
    requires Inv(s) && Can(s, Win(u, ids))
    ensures Inv(DoWin(s, u, ids))
  {
    hide Probe;
    var s', g := DoWin(s, u, ids), s.lookers[u].f;
    assert LookerOk(s, u);
    OneSlot(s, g);
    forall v | 0 <= v < |s.lookers| && v != u && Searching(s.lookers[v], g)
      ensures LookerOk(s', v)
    {
      OpenLooker(s, s', g, v);
    }
    OneFileKeeps(s, s', s.live[g], g, |s.adders|, u);
  }

  lemma WorkKeeps(s: Table, g: nat, word: W.State, rest: Rest)
    requires Inv(s) && Can(s, Work(g, word, rest))
    ensures Inv(Do(s, Work(g, word, rest)))
  {
    hide Probe;
    var s' := s.(slots := s.slots[s.live[g] := Slot(word, g, rest)]);
    OneSlot(s, g);
    forall v | 0 <= v < |s.lookers| && Searching(s.lookers[v], g)
      ensures LookerOk(s', v)
    {
      OpenLooker(s, s', g, v);
    }
    OneFileKeeps(s, s', s.live[g], g, |s.adders|, |s.lookers|);
  }

  lemma WipeKeeps(s: Table, g: nat)
    requires Inv(s) && Can(s, Wipe(g))
    ensures Inv(s.(gone := s.gone + {g}, wiping := s.wiping[g := 3]))
  {
    hide Probe;
    OneSlot(s, g);
    assert SlotOk(s, s.live[g]);
    OneFileKeeps(s, s.(gone := s.gone + {g}, wiping := s.wiping[g := 3]), s.live[g], g, |s.adders|, |s.lookers|);
  }

  /** Nobody is looking up a file that is being wiped. */
  lemma NoSearch(s: Table, g: nat)
    requires Inv(s) && g in s.live && g in s.wiping
    ensures LiveOk(s, g) && forall v | 0 <= v < |s.lookers| :: !Searching(s.lookers[v], g)
  {
    hide Probe;
    assert LiveOk(s, g);
    forall v | 0 <= v < |s.lookers|
      ensures !Searching(s.lookers[v], g)
    {
      assert LookerOk(s, v);
    }
  }

  lemma ZeroLaneKeeps(s: Table, g: nat)
    requires Inv(s) && Can(s, Zero(g)) && s.wiping[g] > 0
    ensures Inv(ZeroLane(s, g))
  {
    hide Probe;
    OneSlot(s, g);
    NoSearch(s, g);
    OneFileKeeps(s, ZeroLane(s, g), s.live[g], g, |s.adders|, |s.lookers|);
  }

  lemma ZeroLastKeeps(s: Table, g: nat)
    requires Inv(s) && Can(s, Zero(g)) && s.wiping[g] == 0
    ensures Inv(ZeroLast(s, g))
  {
    hide Probe;
    OneSlot(s, g);
    NoSearch(s, g);
    OneFileKeeps(s, ZeroLast(s, g), s.live[g], g, |s.adders|, |s.lookers|);
  }

  lemma RetryKeeps(s: Table, b: nat, rec: Rest)
    requires Inv(s) && Can(s, Retry(b, rec))
    ensures Inv(s.(adders := s.adders[b := Trying(s.adders[b].f, rec, 0, [])]))
  {
    hide Probe;
    assert AdderOk(s, b);
    AdderMoves(s, b, Trying(s.adders[b].f, rec, 0, []));
  }

  lemma StepKeeps(s: Table, a: Step)
    requires Inv(s) && Can(s, a)
    ensures Inv(Do(s, a))
  {
    hide Inv, Probe;
    match a
    case Begin(w, f, rec) => BeginKeeps(s, w, f, rec);
    case Retry(w, rec) => RetryKeeps(s, w, rec);
    case Take(w) => TakeKeeps(s, w);
    case Pass(w) => PassKeeps(s, w);
    case Store(w) =>
      if s.adders[w].k > 0 {
        StoreLaneKeeps(s, w);
      } else {
        StoreLastKeeps(s, w);
      }
    case Look(v, f) => LookKeeps(s, v, f);
    case Load(v) => LoadKeeps(s, v);
    case Win(v, ids) => WinKeeps(s, v, ids);
    case Settle(v) => LookerMoves(s, v, Found(s.lookers[v].f, Probe(s.lookers[v].f, s.lookers[v].i)));
    case Next(v) => NextKeeps(s, v);
    case Work(f, word, rest) => WorkKeeps(s, f, word, rest);
    case Wipe(f) => WipeKeeps(s, f);
    case Zero(f) =>
      if s.wiping[f] > 0 {
        ZeroLaneKeeps(s, f);
      } else {
        ZeroLastKeeps(s, f);
      }
  }
}
