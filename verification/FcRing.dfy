/** The file-completion ring: any number of producers (fc_push), one consumer (fc_pop).

    Producers draw tickets with a fetch-add on the head, wait for the tail, wait for their slot
    to be clear, and store the record in four 16-byte lanes, the lane with the state flag last.
    The consumer draws its ticket with a fetch-add on the tail before it reads, waits for the
    head and for the flag, loads the lanes low to high and then zeroes them, the flag last.
    Every action is one of these atomic operations.

    `recs` (the records in ticket order), `who` (who drew each ticket), `stored` and `out` are
    history.
 */
module FcRing {
  import Blocks

  /** The four lanes of a record. */
  type Rec = seq<nat>

  datatype Slot = Slot(full: bool, lanes: Rec)

  datatype Producer =
    | Idle
    | Waiting(h: nat, rec: Rec)            // ticket drawn
    | Admitted(h: nat, rec: Rec)           // the tail was seen close enough
    | Storing(h: nat, rec: Rec, k: nat)    // the slot was seen clear; lane k is next

  datatype Consumer =
    | Resting
    | Claimed(t: nat)                      // ticket drawn
    | Promised(t: nat)                     // the head was seen past it
    | Loading(t: nat, fc: Rec)             // the flag was seen
    | Zeroing(t: nat, fc: Rec, k: nat)     // copied; lane k is zeroed next

  datatype Ring = Ring(slots: seq<Slot>, head: nat, tail: nat, prods: seq<Producer>, cons: Consumer,
                       recs: seq<Rec>, who: seq<nat>, stored: set<nat>, out: seq<Rec>)

  datatype Step = Push(p: nat, rec: Rec) | Admit(p: nat) | Clear(p: nat) | Store(p: nat)
                | Pop | Promise | Flag | Load | Zero

  /** The slot of ticket `h` in a ring of `n`: the remainder, kept as repeated subtraction. */
  function At(n: nat, h: nat): (i: nat)
    requires n > 0
    ensures i < n
  {
    if h < n then h else At(n, h - n)
  }

  lemma {:induction false} AtIsRemainder(n: nat, h: nat)
    requires n > 0
    ensures At(n, h) == h % n
  {
    if h >= n {
      AtIsRemainder(n, h - n);
      OneLapLess(n, h);
    }
  }

  lemma OneLapLess(n: nat, h: nat)
    requires n > 0 && h >= n
    ensures h % n == (h - n) % n
  {
    var q, q' := h / n, (h - n) / n;
    assert q' >= 0;
    assert n * (q' + 1) == n * q' + n;
    Blocks.Product(n, q, q' + 1, h % n - (h - n) % n);
  }

  /** `n` slots, `m` producers. */
  function Start(n: nat, m: nat): (r: Ring)
    ensures |r.slots| == n && |r.prods| == m
  {
    Ring(seq(n, _ => Slot(false, [0, 0, 0, 0])), 0, 0, seq(m, _ => Idle), Resting, [], [], {}, [])
  }

  predicate Can(s: Ring, a: Step)
    requires s.slots != []
  {
    match a
    case Push(p, rec) => p < |s.prods| && s.prods[p].Idle? && |rec| == 4
    case Admit(p) => p < |s.prods| && s.prods[p].Waiting? && s.prods[p].h < s.tail + |s.slots|
    case Clear(p) => p < |s.prods| && s.prods[p].Admitted? && !s.slots[At(|s.slots|, s.prods[p].h)].full
    case Store(p) => p < |s.prods| && s.prods[p].Storing?
    case Pop => s.cons.Resting?
    case Promise => s.cons.Claimed? && s.cons.t < s.head
    case Flag => s.cons.Promised? && s.slots[At(|s.slots|, s.cons.t)].full
    case Load => s.cons.Loading?
    case Zero => s.cons.Zeroing?
  }

  /** One 16-byte store; the state flag travels with lane 0. */
  function Lane(x: Slot, k: nat, v: nat, flag: bool): Slot {
    Slot(if k == 0 then flag else x.full, if k < |x.lanes| then x.lanes[k := v] else x.lanes)
  }

  function DoPush(s: Ring, p: nat, rec: Rec): Ring
    requires p < |s.prods|
  {
    s.(head := s.head + 1, prods := s.prods[p := Waiting(s.head, rec)], recs := s.recs + [rec], who := s.who + [p])
  }

  function DoStore(s: Ring, p: nat): Ring
    requires s.slots != [] && p < |s.prods| && s.prods[p].Storing?
  {
    var x := s.prods[p];
    var i := At(|s.slots|, x.h);
    var v := if x.k < |x.rec| then x.rec[x.k] else 0;
    s.(slots := s.slots[i := Lane(s.slots[i], x.k, v, true)],
       prods := s.prods[p := if x.k == 0 then Idle else Storing(x.h, x.rec, x.k - 1)],
       stored := if x.k == 0 then s.stored + {x.h} else s.stored)
  }

  function DoLoad(s: Ring): Ring
    requires s.slots != [] && s.cons.Loading?
  {
    var x := s.slots[At(|s.slots|, s.cons.t)];
    var fc := s.cons.fc + if |s.cons.fc| < |x.lanes| then [x.lanes[|s.cons.fc|]] else [0];
    s.(cons := if |fc| < 4 then Loading(s.cons.t, fc) else Zeroing(s.cons.t, fc, 3))
  }

  function DoZero(s: Ring): Ring
    requires s.slots != [] && s.cons.Zeroing?
  {
    var i, k := At(|s.slots|, s.cons.t), s.cons.k;
    s.(slots := s.slots[i := Lane(s.slots[i], k, 0, false)],
       cons := if k == 0 then Resting else Zeroing(s.cons.t, s.cons.fc, k - 1),
       out := if k == 0 then s.out + [s.cons.fc] else s.out)
  }

  function Do(s: Ring, a: Step): (r: Ring)
    requires s.slots != [] && Can(s, a)
    ensures |r.slots| == |s.slots|
  {
    match a
    case Push(p, rec) => DoPush(s, p, rec)
    case Admit(p) => s.(prods := s.prods[p := Admitted(s.prods[p].h, s.prods[p].rec)])
    case Clear(p) => s.(prods := s.prods[p := Storing(s.prods[p].h, s.prods[p].rec, 3)])
    case Store(p) => DoStore(s, p)
    case Pop => s.(tail := s.tail + 1, cons := Claimed(s.tail))
    case Promise => s.(cons := Promised(s.cons.t))
    case Flag => s.(cons := Loading(s.cons.t, []))
    case Load => DoLoad(s)
    case Zero => DoZero(s)
  }

  /** A producer goes ahead although the ticket one lap earlier has not been stored yet. */
  predicate Overtakes(s: Ring, a: Step)
    requires s.slots != [] && Can(s, a)
  {
    a.Clear? && s.prods[a.p].h >= |s.slots| && s.prods[a.p].h - |s.slots| !in s.stored
  }

  // ---- Invariant ----

  ghost predicate ProducerOk(s: Ring, p: nat)
    requires p < |s.prods| && s.slots != []
  {
    var x := s.prods[p];
    x.Idle? || (
      && x.h < |s.recs| == |s.who| && s.who[x.h] == p && x.rec == s.recs[x.h] && |x.rec| == 4 && x.h !in s.stored
      && (!x.Waiting? ==> x.h < s.tail + |s.slots|)
      && (x.Storing? ==>
            && x.h < |s.out| + |s.slots| && x.k < 4
            && forall j | x.k < j < 4 :: LaneIs(s.slots[At(|s.slots|, x.h)], j, x.rec)))
  }

  predicate LaneIs(x: Slot, j: nat, rec: Rec) {
    j < |x.lanes| && j < |rec| && x.lanes[j] == rec[j]
  }

  predicate HasTicket(x: Producer, h: nat) { !x.Idle? && x.h == h }

  /** Every ticket drawn is stored or still with the producer that drew it. */
  ghost predicate TicketOk(s: Ring, h: nat)
    requires h < |s.who|
  {
    h in s.stored || (s.who[h] < |s.prods| && HasTicket(s.prods[s.who[h]], h))
  }

  /** The slot of ticket `h`, for the lap of tickets that starts with the first undelivered one. */
  ghost predicate SlotOk(s: Ring, h: nat)
    requires s.slots != []
  {
    var x := s.slots[At(|s.slots|, h)];
    && |x.lanes| == 4
    && (x.full <==> h in s.stored)
    && (x.full && !(s.cons.Zeroing? && h == s.cons.t) ==> h < |s.recs| && x.lanes == s.recs[h])
  }

  ghost predicate ConsumerOk(s: Ring) {
    match s.cons
    case Resting => s.tail == |s.out|
    case Claimed(t) => t == |s.out| && s.tail == t + 1
    case Promised(t) => t == |s.out| && s.tail == t + 1 && t < |s.recs|
    case Loading(t, fc) =>
      && t == |s.out| && s.tail == t + 1 && t in s.stored && t < |s.recs|
      && |fc| < 4 == |s.recs[t]| && fc == s.recs[t][..|fc|]
    case Zeroing(t, fc, k) =>
      t == |s.out| && s.tail == t + 1 && t in s.stored && t < |s.recs| && fc == s.recs[t] && k < 4
  }

  ghost predicate HistoryOk(s: Ring) {
    && s.head == |s.recs| == |s.who|
    && s.out <= s.recs
    && (forall h | 0 <= h < |s.recs| :: |s.recs[h]| == 4)
    && (forall h | h in s.stored :: h < |s.recs| && h < |s.out| + |s.slots|)
    && (forall h: nat | h < |s.out| :: h in s.stored)
  }

  ghost predicate Inv(s: Ring) {
    && s.slots != []
    && HistoryOk(s) && ConsumerOk(s)
    && (forall p | 0 <= p < |s.prods| :: ProducerOk(s, p))
    && (forall h | 0 <= h < |s.who| :: TicketOk(s, h))
    && (forall h | |s.out| <= h < |s.out| + |s.slots| :: SlotOk(s, h))
  }

  /** Tickets less than a lap apart have different slots. */
  lemma {:induction false} Apart(n: nat, g: nat, h: nat)
    requires n > 0 && g < h < g + n
    ensures At(n, g) != At(n, h)
  {
    if g >= n {
      Apart(n, g - n, h - n);
    }
  }

  /** What holds of two different tickets of one lap. */
  lemma Slots(n: nat, base: nat, g: nat, h: nat)
    requires n > 0 && base <= g < base + n && base <= h < base + n && g != h
    ensures At(n, g) != At(n, h)
  {
    if g < h {
      Apart(n, g, h);
    } else {
      Apart(n, h, g);
    }
  }

  // ---- Every step that does not overtake keeps the invariant ----

  lemma PushKeeps(s: Ring, p: nat, rec: Rec)
    requires Inv(s) && Can(s, Push(p, rec))
    ensures Inv(DoPush(s, p, rec))
  {
    hide At;
    var s' := DoPush(s, p, rec);
    forall h | 0 <= h < |s'.who|
      ensures TicketOk(s', h)
    {
      assert h < |s.who| ==> TicketOk(s, h);
    }
    forall v | 0 <= v < |s.prods|
      ensures ProducerOk(s', v)
    {
      assert ProducerOk(s, v);
    }
    forall h | |s.out| <= h < |s.out| + |s.slots|
      ensures SlotOk(s', h)
    {
      assert SlotOk(s, h);
    }
  }

  /** Producer `p` moves on with its ticket and touches no slot. */
  lemma MoveKeeps(s: Ring, p: nat, x: Producer)
    requires Inv(s) && p < |s.prods| && HasTicket(s.prods[p], if x.Idle? then 0 else x.h) && !x.Idle?
    requires ProducerOk(s.(prods := s.prods[p := x]), p)
    ensures Inv(s.(prods := s.prods[p := x]))
  {
    hide At;
    var s' := s.(prods := s.prods[p := x]);
    forall h | 0 <= h < |s.who|
      ensures TicketOk(s', h)
    {
      assert TicketOk(s, h);
    }
    forall v | 0 <= v < |s.prods|
      ensures ProducerOk(s', v)
    {
      assert ProducerOk(s, v);
    }
    forall h | |s.out| <= h < |s.out| + |s.slots|
      ensures SlotOk(s', h)
    {
      assert SlotOk(s, h);
    }
  }

  lemma AdmitKeeps(s: Ring, p: nat)
    requires Inv(s) && Can(s, Admit(p))
    ensures Inv(Do(s, Admit(p)))
  {
    assert ProducerOk(s, p);
    MoveKeeps(s, p, Admitted(s.prods[p].h, s.prods[p].rec));
  }

  /** A clear slot means that the ticket one lap earlier has been delivered, unless that ticket
      has not even been stored. */
  lemma ClearMeansDelivered(s: Ring, p: nat)
    requires Inv(s) && Can(s, Clear(p))
    ensures |s.out| <= s.prods[p].h
    ensures if Overtakes(s, Clear(p)) then s.prods[p].h == |s.out| + |s.slots| else s.prods[p].h < |s.out| + |s.slots|
  {
    assert ProducerOk(s, p) && SlotOk(s, |s.out|);
  }

  lemma ClearKeeps(s: Ring, p: nat)
    requires Inv(s) && Can(s, Clear(p)) && !Overtakes(s, Clear(p))
    ensures Inv(Do(s, Clear(p)))
  {
    assert ProducerOk(s, p);
    ClearMeansDelivered(s, p);
    MoveKeeps(s, p, Storing(s.prods[p].h, s.prods[p].rec, 3));
  }

  /** A producer's ticket lies beyond everything delivered. */
  lemma NotDelivered(s: Ring, p: nat)
    requires HistoryOk(s) && s.slots != [] && p < |s.prods| && ProducerOk(s, p) && !s.prods[p].Idle?
    ensures |s.out| <= s.prods[p].h
  {
    assert s.prods[p].h !in s.stored;
  }

  lemma StoreProducer(s: Ring, p: nat, v: nat)
    requires Inv(s) && Can(s, Store(p)) && v < |s.prods|
    ensures ProducerOk(DoStore(s, p), v)
  {
    assert ProducerOk(s, p) && ProducerOk(s, v);
    NotDelivered(s, p);
    assert SlotOk(s, s.prods[p].h);
    hide At;
    if v != p && s.prods[v].Storing? {
      NotDelivered(s, v);
      Slots(|s.slots|, |s.out|, s.prods[p].h, s.prods[v].h);
    } else if v == p && s.prods[p].k > 0 {
      LanesGrow(s.slots[At(|s.slots|, s.prods[p].h)], s.prods[p].rec, s.prods[p].k);
    }
  }

  lemma LanesGrow(x: Slot, rec: Rec, k: nat)
    requires |x.lanes| == 4 == |rec| && k < 4 && forall j | k < j < 4 :: LaneIs(x, j, rec)
    ensures forall j | k - 1 < j < 4 :: LaneIs(Lane(x, k, rec[k], true), j, rec)
  {
    forall j | k - 1 < j < 4
      ensures LaneIs(Lane(x, k, rec[k], true), j, rec)
    {
      assert k < j ==> LaneIs(x, j, rec);
    }
  }

  lemma StoreSlot(s: Ring, p: nat, h: nat)
    requires Inv(s) && Can(s, Store(p)) && |s.out| <= h < |s.out| + |s.slots|
    ensures SlotOk(DoStore(s, p), h)
  {
    var x := s.prods[p];
    assert ProducerOk(s, p) && SlotOk(s, h);
    NotDelivered(s, p);
    hide At;
    if h != x.h {
      Slots(|s.slots|, |s.out|, x.h, h);
    } else if x.k == 0 {
      StoredWhole(s.slots[At(|s.slots|, h)], x.rec);
    }
  }

  /** The last lane to be stored completes the record. */
  lemma StoredWhole(x: Slot, rec: Rec)
    requires |x.lanes| == 4 == |rec| && forall j | 0 < j < 4 :: LaneIs(x, j, rec)
    ensures Lane(x, 0, rec[0], true) == Slot(true, rec)
  {
    assert LaneIs(x, 1, rec) && LaneIs(x, 2, rec) && LaneIs(x, 3, rec);
  }

  /** A slot changes that belongs to a ticket of the current lap; the others stay as they are. */
  lemma StoreKeeps(s: Ring, p: nat)
    requires Inv(s) && Can(s, Store(p))
    ensures Inv(DoStore(s, p))
  {
    var s' := DoStore(s, p);
    assert ProducerOk(s, p);
    forall v | 0 <= v < |s.prods|
      ensures ProducerOk(s', v)
    {
      StoreProducer(s, p, v);
    }
    forall h | 0 <= h < |s.who|
      ensures TicketOk(s', h)
    {
      assert TicketOk(s, h);
    }
    forall h | |s.out| <= h < |s.out| + |s.slots|
      ensures SlotOk(s', h)
    {
      StoreSlot(s, p, h);
    }
  }

  /** The consumer moves on and touches no slot. */
  lemma ConsumerMoves(s: Ring, tail: nat, x: Consumer)
    requires Inv(s) && tail >= s.tail && ConsumerOk(s.(tail := tail, cons := x))
    requires s.cons.Zeroing? ==> x == s.cons
    ensures Inv(s.(tail := tail, cons := x))
  {
    hide At;
    var s' := s.(tail := tail, cons := x);
    forall v | 0 <= v < |s.prods|
      ensures ProducerOk(s', v)
    {
      assert ProducerOk(s, v);
    }
    forall h | 0 <= h < |s.who|
      ensures TicketOk(s', h)
    {
      assert TicketOk(s, h);
    }
    forall h | |s.out| <= h < |s.out| + |s.slots|
      ensures SlotOk(s', h)
    {
      assert SlotOk(s, h);
    }
  }

  lemma LoadKeeps(s: Ring)
    requires Inv(s) && s.cons.Loading?
    ensures Inv(DoLoad(s))
  {
    assert SlotOk(s, s.cons.t);
    ConsumerMoves(s, s.tail, DoLoad(s).cons);
  }

  lemma ZeroKeeps(s: Ring)
    requires Inv(s) && s.cons.Zeroing?
    ensures Inv(DoZero(s))
  {
    var s', n, base, t := DoZero(s), |s.slots|, |s.out|, s.cons.t;
    assert SlotOk(s, t);
    assert At(n, base + n) == At(n, base);
    hide At;
    forall v | 0 <= v < |s.prods|
      ensures ProducerOk(s', v)
    {
      assert ProducerOk(s, v);
      if s.prods[v].Storing? {
        NotDelivered(s, v);
        Slots(n, base, t, s.prods[v].h);
      }
    }
    forall h | 0 <= h < |s.who|
      ensures TicketOk(s', h)
    {
      assert TicketOk(s, h);
    }
    forall h | |s'.out| <= h < |s'.out| + n
      ensures SlotOk(s', h)
    {
      if h < base + n {
        assert SlotOk(s, h);
        if h != t {
          Slots(n, base, t, h);
        }
      }
    }
  }

  lemma StepKeeps(s: Ring, a: Step)
    requires Inv(s) && Can(s, a) && !Overtakes(s, a)
    ensures Inv(Do(s, a))
  {
    match a
    case Push(p, rec) => PushKeeps(s, p, rec);
    case Admit(p) => AdmitKeeps(s, p);
    case Clear(p) => ClearKeeps(s, p);
    case Store(p) => StoreKeeps(s, p);
    case Pop => ConsumerMoves(s, s.tail + 1, Claimed(s.tail));
    case Promise => ConsumerMoves(s, s.tail, Promised(s.cons.t));
    case Flag =>
      assert SlotOk(s, s.cons.t);
      ConsumerMoves(s, s.tail, Loading(s.cons.t, []));
    case Load => LoadKeeps(s);
    case Zero => ZeroKeeps(s);
  }

  // ---- Runs ----

  predicate Legal(s: Ring, run: seq<Step>)
    requires s.slots != []
    decreases |run|, 0
  {
    run == [] || (Legal(s, run[..|run| - 1]) && Can(Exec(s, run[..|run| - 1]), run[|run| - 1]))
  }

  function Exec(s: Ring, run: seq<Step>): (r: Ring)
    requires s.slots != [] && Legal(s, run)
    ensures |r.slots| == |s.slots|
    decreases |run|, 1
  {
    if run == [] then s else Do(Exec(s, run[..|run| - 1]), run[|run| - 1])
  }

  /** No step of the run overtakes. */
  predicate Orderly(s: Ring, run: seq<Step>)
    requires s.slots != [] && Legal(s, run)
  {
    run == [] || (Orderly(s, run[..|run| - 1]) && !Overtakes(Exec(s, run[..|run| - 1]), run[|run| - 1]))
  }

  lemma StartOk(n: nat, m: nat)
    requires n > 0
    ensures Inv(Start(n, m))
  {
  }

  lemma {:induction false} RunKeeps(n: nat, m: nat, run: seq<Step>)
    requires n > 0 && Legal(Start(n, m), run) && Orderly(Start(n, m), run)
    ensures Inv(Exec(Start(n, m), run))
    decreases |run|
  {
    hide Inv, At;
    if run == [] {
      StartOk(n, m);
    } else {
      RunKeeps(n, m, run[..|run| - 1]);
      StepKeeps(Exec(Start(n, m), run[..|run| - 1]), run[|run| - 1]);
    }
  }

  /** In every run without overtaking, the records come out exactly once each and in ticket
      order, and a record is never stored into a full slot. */
  lemma DeliveredInOrder(n: nat, m: nat, run: seq<Step>)
    requires n > 0 && Legal(Start(n, m), run) && Orderly(Start(n, m), run)
    ensures var s := Exec(Start(n, m), run);
            && s.out <= s.recs
            && (forall p | 0 <= p < |s.prods| && s.prods[p].Storing? :: !s.slots[At(n, s.prods[p].h)].full)
  {
    RunKeeps(n, m, run);
    var s := Exec(Start(n, m), run);
    forall p | 0 <= p < |s.prods| && s.prods[p].Storing?
      ensures !s.slots[At(n, s.prods[p].h)].full
    {
      assert ProducerOk(s, p);
      NotDelivered(s, p);
      assert SlotOk(s, s.prods[p].h);
    }
  }

  // ---- Orderly runs can always be brought to an end ----

  function ConsumerRank(x: Consumer): nat {
    match x
    case Resting => 12
    case Claimed(_) => 11
    case Promised(_) => 10
    case Loading(_, fc) => if |fc| < 4 then 9 - |fc| else 5
    case Zeroing(_, _, k) => if k < 4 then k else 4
  }

  function ProducerRank(x: Producer): nat {
    match x
    case Idle => 0
    case Waiting(_, _) => 6
    case Admitted(_, _) => 5
    case Storing(_, _, k) => if k < 4 then k + 1 else 4
  }

  /** How far the producer of the next record to be delivered has to go. */
  function NextRank(s: Ring): nat {
    if |s.out| < |s.who| && s.who[|s.out|] < |s.prods| then ProducerRank(s.prods[s.who[|s.out|]]) else 0
  }

  /** The step of the producer that holds ticket `t`, if the record is not stored yet. */
  function Stores(s: Ring, t: nat): Step {
    if t in s.stored || t >= |s.who| || s.who[t] >= |s.prods| then Flag
    else
      match s.prods[s.who[t]]
      case Waiting(_, _) => Admit(s.who[t])
      case Admitted(_, _) => Clear(s.who[t])
      case _ => Store(s.who[t])
  }

  /** The step that brings the next record closer. */
  function Helpful(s: Ring): Step {
    match s.cons
    case Resting => Pop
    case Claimed(_) => Promise
    case Promised(t) => Stores(s, t)
    case Loading(_, _) => Load
    case Zeroing(_, _, _) => Zero
  }

  /** The step from `s` to `s'` leaves less to do before everything is delivered. */
  ghost predicate Closer(s: Ring, s': Ring) {
    && s'.recs == s.recs && |s.out| <= |s'.out|
    && (|s'.out| == |s.out| ==>
          || ConsumerRank(s'.cons) < ConsumerRank(s.cons)
          || (ConsumerRank(s'.cons) == ConsumerRank(s.cons) && NextRank(s') < NextRank(s)))
  }

  lemma ProducerMoves(s: Ring)
    requires Inv(s) && s.cons.Promised?
    ensures var a := Helpful(s); Can(s, a) && !Overtakes(s, a) && Closer(s, Do(s, a))
  {
    var t := s.cons.t;
    assert TicketOk(s, t) && SlotOk(s, t);
    if t !in s.stored {
      assert ProducerOk(s, s.who[t]);
    }
    hide At;
  }

  /** As long as a record is undelivered there is a step, not one that overtakes and not a new record,
      that brings the next one closer. */
  lemma AlwaysMoves(s: Ring)
    requires Inv(s) && |s.out| < |s.recs|
    ensures var a := Helpful(s); Can(s, a) && !Overtakes(s, a) && Closer(s, Do(s, a))
  {
    if s.cons.Promised? {
      ProducerMoves(s);
    } else {
      hide At;
    }
  }

  /** The consumer draws its ticket without a look at the head: it may hold one before any producer does. */
  lemma ConsumerClaimsEarly(n: nat, m: nat)
    requires n > 0
    ensures Legal(Start(n, m), [Pop]) && Exec(Start(n, m), [Pop]) == Start(n, m).(tail := 1, cons := Claimed(0))
  {
    Extend(Start(n, m), [], Pop);
    assert [] + [Pop] == [Pop];
  }

  /** From every state an orderly run can reach, all the records handed in so far can still be delivered. */
  lemma {:induction false} EverythingArrives(n: nat, m: nat, run: seq<Step>) returns (r: seq<Step>)
    requires n > 0 && Legal(Start(n, m), run) && Orderly(Start(n, m), run)
    ensures run <= r && Legal(Start(n, m), r) && Orderly(Start(n, m), r)
    ensures Exec(Start(n, m), r).out == Exec(Start(n, m), r).recs == Exec(Start(n, m), run).recs
    decreases |Exec(Start(n, m), run).recs| - |Exec(Start(n, m), run).out|,
              ConsumerRank(Exec(Start(n, m), run).cons), NextRank(Exec(Start(n, m), run))
  {
    var s := Exec(Start(n, m), run);
    RunKeeps(n, m, run);
    if |s.out| == |s.recs| {
      r := run;
    } else {
      AlwaysMoves(s);
      Extend(Start(n, m), run, Helpful(s));
      hide Inv, Can, Do, Helpful, ConsumerRank, NextRank, Overtakes;
      r := EverythingArrives(n, m, run + [Helpful(s)]);
    }
  }

  // ---- Overtaking goes wrong ----

  lemma Extend(s: Ring, run: seq<Step>, a: Step)
    requires s.slots != [] && Legal(s, run) && Can(Exec(s, run), a)
    ensures Legal(s, run + [a]) && Exec(s, run + [a]) == Do(Exec(s, run), a)
    ensures Orderly(s, run) && !Overtakes(Exec(s, run), a) ==> Orderly(s, run + [a])
  {
    assert (run + [a])[..|run|] == run;
  }

  /** One lane of producer `p` stored: nothing else changes. */
  lemma OneStore(t: Ring, p: nat, i: nat, x: Producer, y: Slot)
    requires t.slots != [] && p < |t.prods| && x.Storing? && |x.rec| == 4 && x.k < 4 && |y.lanes| == 4
    requires i == At(|t.slots|, x.h)
    ensures var u := DoStore(t.(slots := t.slots[i := y], prods := t.prods[p := x]), p);
            u == t.(slots := t.slots[i := Lane(y, x.k, x.rec[x.k], true)],
                    prods := t.prods[p := if x.k == 0 then Idle else Storing(x.h, x.rec, x.k - 1)],
                    stored := if x.k == 0 then t.stored + {x.h} else t.stored)
  {
    hide At;
  }

  /** All lanes of a producer stored in a row. */
  function Stored(t: Ring, p: nat): Ring
    requires t.slots != [] && p < |t.prods| && t.prods[p].Storing?
  {
    var i := At(|t.slots|, t.prods[p].h);
    t.(slots := t.slots[i := Slot(true, t.prods[p].rec)], prods := t.prods[p := Idle],
       stored := t.stored + {t.prods[p].h})
  }

  lemma FourStores(t: Ring, p: nat)
    requires t.slots != [] && p < |t.prods| && t.prods[p].Storing? && t.prods[p].k == 3 && |t.prods[p].rec| == 4
    requires |t.slots[At(|t.slots|, t.prods[p].h)].lanes| == 4
    ensures var t1 := DoStore(t, p);
            && t1.prods[p].Storing?
            && var t2 := DoStore(t1, p);
               && t2.prods[p].Storing?
               && var t3 := DoStore(t2, p);
                  t3.prods[p].Storing? && DoStore(t3, p) == Stored(t, p)
  {
    hide At;
    var x := t.prods[p];
    var i := At(|t.slots|, x.h);
    var y := t.slots[i];
    assert t == t.(slots := t.slots[i := y], prods := t.prods[p := x]);
    OneStore(t, p, i, x, y);
    var y1 := Lane(y, 3, x.rec[3], true);
    OneStore(t, p, i, Storing(x.h, x.rec, 2), y1);
    var y2 := Lane(y1, 2, x.rec[2], true);
    OneStore(t, p, i, Storing(x.h, x.rec, 1), y2);
    var y3 := Lane(y2, 1, x.rec[1], true);
    OneStore(t, p, i, Storing(x.h, x.rec, 0), y3);
    assert Lane(y3, 0, x.rec[0], true) == Slot(true, x.rec);
  }

  lemma StoresAll(s: Ring, run: seq<Step>, p: nat) returns (r: seq<Step>)
    requires s.slots != [] && Legal(s, run) && p < |Exec(s, run).prods|
    requires var t := Exec(s, run);
             && t.prods[p].Storing? && t.prods[p].k == 3 && |t.prods[p].rec| == 4
             && |t.slots[At(|t.slots|, t.prods[p].h)].lanes| == 4
    ensures Legal(s, r) && Exec(s, r) == Stored(Exec(s, run), p)
    ensures Orderly(s, run) ==> Orderly(s, r)
  {
    FourStores(Exec(s, run), p);
    hide At, DoStore, Stored;
    Extend(s, run, Store(p));
    r := run + [Store(p)];
    Extend(s, r, Store(p));
    r := r + [Store(p)];
    Extend(s, r, Store(p));
    r := r + [Store(p)];
    Extend(s, r, Store(p));
    r := r + [Store(p)];
  }

  lemma OneLoad(t: Ring, c: nat, i: nat, y: Rec, k: nat)
    requires t.slots != [] && i == At(|t.slots|, c) && t.slots[i].lanes == y && |y| == 4 && k < 4
    ensures DoLoad(t.(cons := Loading(c, y[..k]))) ==
            t.(cons := if k < 3 then Loading(c, y[..k + 1]) else Zeroing(c, y, 3))
  {
    hide At;
    assert y[..k] + [y[k]] == y[..k + 1];
    assert y[..4] == y;
  }

  /** A consumer that has seen the flag copies the lanes it finds. */
  lemma LoadsAll(s: Ring, run: seq<Step>) returns (r: seq<Step>)
    requires s.slots != [] && Legal(s, run)
    requires var t := Exec(s, run);
             t.cons.Promised? && t.slots[At(|t.slots|, t.cons.t)].full && |t.slots[At(|t.slots|, t.cons.t)].lanes| == 4
    ensures Legal(s, r)
    ensures var t := Exec(s, run);
            Exec(s, r) == t.(cons := Zeroing(t.cons.t, t.slots[At(|t.slots|, t.cons.t)].lanes, 3))
  {
    var t := Exec(s, run);
    var i, c := At(|t.slots|, t.cons.t), t.cons.t;
    var y := t.slots[i].lanes;
    Extend(s, run, Flag);
    r := run + [Flag];
    hide At, DoLoad;
    for k := 0 to 4
      invariant Legal(s, r) && Exec(s, r) == t.(cons := if k < 4 then Loading(c, y[..k]) else Zeroing(c, y, 3))
    {
      OneLoad(t, c, i, y, k);
      Extend(s, r, Load);
      r := r + [Load];
    }
  }

  lemma ZeroesAll(s: Ring, run: seq<Step>) returns (r: seq<Step>)
    requires s.slots != [] && Legal(s, run) && Exec(s, run).cons.Zeroing? && Exec(s, run).cons.k == 3
    ensures Legal(s, r)
    ensures Exec(s, r).out == Exec(s, run).out + [Exec(s, run).cons.fc] && Exec(s, r).recs == Exec(s, run).recs
  {
    hide At;
    var t := Exec(s, run);
    r := run;
    for k := 0 to 4
      invariant Legal(s, r) && Exec(s, r).recs == t.recs
      invariant k < 4 ==> Exec(s, r).cons == Zeroing(t.cons.t, t.cons.fc, 3 - k) && Exec(s, r).out == t.out
      invariant k == 4 ==> Exec(s, r).out == t.out + [t.cons.fc]
    {
      Extend(s, r, Zero);
      r := r + [Zero];
    }
  }

  /** The overtaker's slot is the one the consumer is waiting at. */
  predicate Collision(s: Ring, p: nat, t: nat)
    requires s.slots != []
  {
    && p < |s.prods| && s.prods[p].Admitted? && |s.prods[p].rec| == 4
    && At(|s.slots|, s.prods[p].h) == At(|s.slots|, t)
    && !s.slots[At(|s.slots|, t)].full && |s.slots[At(|s.slots|, t)].lanes| == 4
    && (s.cons == Claimed(t) || s.cons == Promised(t)) && t < s.head
  }

  lemma OvertakingCollides(s: Ring, p: nat)
    requires Inv(s) && Can(s, Clear(p)) && Overtakes(s, Clear(p))
    ensures s.prods[p].h == |s.out| + |s.slots| < |s.recs| && s.prods[p].rec == s.recs[s.prods[p].h]
    ensures Collision(s, p, |s.out|)
  {
    ClearMeansDelivered(s, p);
    assert ProducerOk(s, p) && SlotOk(s, |s.out|);
    assert At(|s.slots|, s.prods[p].h) == At(|s.slots|, |s.out|);
  }

  lemma Promises(s0: Ring, run: seq<Step>, p: nat, t: nat) returns (r: seq<Step>)
    requires s0.slots != [] && Legal(s0, run) && Collision(Exec(s0, run), p, t)
    ensures Legal(s0, r)
    ensures var s := Exec(s0, run);
            Exec(s0, r) == s.(cons := Promised(t), prods := s.prods[p := Storing(s.prods[p].h, s.prods[p].rec, 3)])
  {
    hide At;
    r := run;
    if Exec(s0, run).cons.Claimed? {
      Extend(s0, r, Promise);
      r := r + [Promise];
    }
    Extend(s0, r, Clear(p));
    r := r + [Clear(p)];
  }

  lemma CollisionDelivers(s0: Ring, run: seq<Step>, p: nat, t: nat) returns (r: seq<Step>)
    requires s0.slots != [] && Legal(s0, run) && Collision(Exec(s0, run), p, t)
    ensures Legal(s0, r)
    ensures var s, u := Exec(s0, run), Exec(s0, r);
            u.recs == s.recs && u.out == s.out + [s.prods[p].rec]
  {
    hide At;
    var r1 := Promises(s0, run, p, t);
    var r2 := StoresAll(s0, r1, p);
    var r3 := LoadsAll(s0, r2);
    r := ZeroesAll(s0, r3);
  }

  /** From every orderly state, a step that overtakes can be followed by a delivery out of
      order: the overtaker's record comes out in place of the ticket it overtook. */
  lemma OvertakingMisdelivers(n: nat, m: nat, run: seq<Step>, p: nat) returns (r: seq<Step>)
    requires n > 0 && Legal(Start(n, m), run) && Orderly(Start(n, m), run)
    requires Can(Exec(Start(n, m), run), Clear(p)) && Overtakes(Exec(Start(n, m), run), Clear(p))
    ensures Legal(Start(n, m), r)
    ensures var s, u := Exec(Start(n, m), run), Exec(Start(n, m), r);
            && s.prods[p].h == |s.out| + n < |s.recs| && u.recs == s.recs
            && u.out == s.out + [s.recs[|s.out| + n]]
  {
    hide Inv, At, Start, Exec, Legal, Orderly, Collision, Can, Overtakes;
    RunKeeps(n, m, run);
    OvertakingCollides(Exec(Start(n, m), run), p);
    r := CollisionDelivers(Start(n, m), run, p, |Exec(Start(n, m), run).out|);
  }

  // ---- When overtaking can happen at all ----

  /** Only another producer's ticket can be overtaken. */
  lemma OvertakenIsAnother(s: Ring, p: nat)
    requires Inv(s) && Can(s, Clear(p)) && Overtakes(s, Clear(p))
    ensures |s.prods| >= 2
  {
    ClearMeansDelivered(s, p);
    assert ProducerOk(s, p);
    assert TicketOk(s, |s.out|);
  }

  /** With one producer no run overtakes. */
  lemma {:induction false} OneProducerIsOrderly(n: nat, m: nat, run: seq<Step>)
    requires n > 0 && m <= 1 && Legal(Start(n, m), run)
    ensures Orderly(Start(n, m), run) && |Exec(Start(n, m), run).prods| == m
    decreases |run|
  {
    if run != [] {
      var r, a := run[..|run| - 1], run[|run| - 1];
      OneProducerIsOrderly(n, m, r);
      RunKeeps(n, m, r);
      if Overtakes(Exec(Start(n, m), r), a) {
        OvertakenIsAnother(Exec(Start(n, m), r), a.p);
        assert false;
      }
    }
  }

  /** Producer 0 has drawn ticket 0 and stalls, producer 1 has stored the next `k`. */
  predicate Stalled(s: Ring, a: Rec, b: Rec, k: nat) {
    && |s.prods| >= 2 && s.prods[0] == Waiting(0, a) && s.prods[1] == Idle && s.cons == Resting
    && s.tail == 0 && s.head == k + 1 && s.out == [] && 0 !in s.stored && k + 1 !in s.stored
    && |s.recs| == k + 1 && s.recs[0] == a && |a| == 4 && |b| == 4
    && forall i | 0 < i <= k :: s.recs[i] == b
  }

  /** Producer `p` draws a ticket, is admitted and finds its slot clear, one after the other. */
  function Pushed(s: Ring, p: nat, rec: Rec): Ring
    requires s.slots != [] && p < |s.prods|
  {
    DoPush(s, p, rec).(prods := s.prods[p := Storing(s.head, rec, 3)])
  }

  lemma PushesOne(s0: Ring, run: seq<Step>, p: nat, rec: Rec) returns (r: seq<Step>)
    requires s0.slots != [] && Legal(s0, run) && Orderly(s0, run)
    requires var s := Exec(s0, run);
             && p < |s.prods| && s.prods[p].Idle? && |rec| == 4 && s.head < s.tail + |s.slots|
             && !s.slots[At(|s.slots|, s.head)].full && |s.slots[At(|s.slots|, s.head)].lanes| == 4
             && (s.head >= |s.slots| ==> s.head - |s.slots| in s.stored)
    ensures Legal(s0, r) && Orderly(s0, r) && Exec(s0, r) == Stored(Pushed(Exec(s0, run), p, rec), p)
  {
    hide At;
    Extend(s0, run, Push(p, rec));
    var r1 := run + [Push(p, rec)];
    Extend(s0, r1, Admit(p));
    var r2 := r1 + [Admit(p)];
    Extend(s0, r2, Clear(p));
    var r3 := r2 + [Clear(p)];
    assert Exec(s0, r3) == Pushed(Exec(s0, run), p, rec);
    r := StoresAll(s0, r3, p);
  }

  lemma StalledNext(s: Ring, a: Rec, b: Rec, k: nat)
    requires Inv(s) && Stalled(s, a, b, k) && k + 1 < |s.slots|
    ensures !s.slots[At(|s.slots|, k + 1)].full && |s.slots[At(|s.slots|, k + 1)].lanes| == 4
    ensures Stalled(Stored(Pushed(s, 1, b), 1), a, b, k + 1)
  {
    assert SlotOk(s, k + 1) && k + 2 !in s.stored;
  }

  lemma DrawsNext(s0: Ring, run: seq<Step>, a: Rec, b: Rec, k: nat) returns (r: seq<Step>)
    requires s0.slots != [] && Legal(s0, run) && Orderly(s0, run) && Inv(Exec(s0, run))
    requires Stalled(Exec(s0, run), a, b, k) && k + 1 < |s0.slots|
    ensures Legal(s0, r) && Orderly(s0, r) && Stalled(Exec(s0, r), a, b, k + 1)
  {
    hide At, Inv, Stored, Pushed;
    StalledNext(Exec(s0, run), a, b, k);
    r := PushesOne(s0, run, 1, b);
  }

  lemma StalledFirst(n: nat, m: nat, a: Rec, b: Rec)
    requires n > 0 && m >= 2 && |a| == 4 && |b| == 4
    ensures Stalled(DoPush(Start(n, m), 0, a), a, b, 0)
  {
  }

  lemma FirstStalls(n: nat, m: nat, a: Rec, b: Rec) returns (r: seq<Step>)
    requires n > 0 && m >= 2 && |a| == 4 && |b| == 4
    ensures Legal(Start(n, m), r) && Orderly(Start(n, m), r) && Stalled(Exec(Start(n, m), r), a, b, 0)
  {
    StalledFirst(n, m, a, b);
    hide At, Stalled, DoPush;
    assert Legal(Start(n, m), []) && Orderly(Start(n, m), []) && Exec(Start(n, m), []) == Start(n, m);
    Extend(Start(n, m), [], Push(0, a));
    r := [] + [Push(0, a)];
  }

  lemma {:induction false} FillsUp(n: nat, m: nat, a: Rec, b: Rec, k: nat) returns (r: seq<Step>)
    requires n > 0 && m >= 2 && |a| == 4 && |b| == 4 && k < n
    ensures Legal(Start(n, m), r) && Orderly(Start(n, m), r)
    ensures Stalled(Exec(Start(n, m), r), a, b, k)
    decreases k
  {
    hide At, Inv, Stalled, Start, Legal, Exec, Orderly;
    if k == 0 {
      r := FirstStalls(n, m, a, b);
    } else {
      r := FillsUp(n, m, a, b, k - 1);
      RunKeeps(n, m, r);
      r := DrawsNext(Start(n, m), r, a, b, k - 1);
    }
  }

  /** Two producers are enough for a run in which the second, with record `z`, is about to
      overtake the first, with record `a`, while all slots are clear or hold `b`. */
  lemma OvertakingIsReachable(n: nat, m: nat, a: Rec, b: Rec, z: Rec) returns (r: seq<Step>)
    requires n > 0 && m >= 2 && |a| == 4 && |b| == 4 && |z| == 4
    ensures Legal(Start(n, m), r) && Orderly(Start(n, m), r)
    ensures var s := Exec(Start(n, m), r);
            && Can(s, Clear(1)) && Overtakes(s, Clear(1)) && s.out == [] && s.prods[0] == Waiting(0, a)
            && s.prods[1] == Admitted(n, z) && |s.recs| == n + 1 && s.recs[0] == a && s.recs[n] == z && s.tail == 1
            && forall i | 0 < i < n :: s.recs[i] == b
  {
    r := FillsUp(n, m, a, b, n - 1);
    RunKeeps(n, m, r);
    assert SlotOk(Exec(Start(n, m), r), 0);
    r := AboutToOvertake(Start(n, m), r, a, b, z);
  }

  lemma AboutToOvertake(s0: Ring, run: seq<Step>, a: Rec, b: Rec, z: Rec) returns (r: seq<Step>)
    requires s0.slots != [] && Legal(s0, run) && Orderly(s0, run) && |z| == 4
    requires Stalled(Exec(s0, run), a, b, |s0.slots| - 1) && !Exec(s0, run).slots[At(|s0.slots|, 0)].full
    ensures Legal(s0, r) && Orderly(s0, r)
    ensures var s, n := Exec(s0, r), |s0.slots|;
            && Can(s, Clear(1)) && Overtakes(s, Clear(1)) && s.out == [] && s.prods[0] == Waiting(0, a)
            && s.prods[1] == Admitted(n, z) && |s.recs| == n + 1 && s.recs[0] == a && s.recs[n] == z && s.tail == 1
            && forall i | 0 < i < n :: s.recs[i] == b
  {
    OvertakeReady(Exec(s0, run), a, b, z);
    hide At, Stalled;
    Extend(s0, run, Push(1, z));
    var r1 := run + [Push(1, z)];
    Extend(s0, r1, Pop);
    var r2 := r1 + [Pop];
    Extend(s0, r2, Admit(1));
    r := r2 + [Admit(1)];
  }

  /** Producer 1 draws ticket `n`, the consumer claims ticket 0, and producer 1 is admitted. */
  function Overtaking(s: Ring, z: Rec): Ring
    requires |s.prods| >= 2
  {
    s.(head := s.head + 1, tail := s.tail + 1, cons := Claimed(s.tail), recs := s.recs + [z], who := s.who + [1],
       prods := s.prods[1 := Admitted(s.head, z)])
  }

  lemma OvertakeReady(s: Ring, a: Rec, b: Rec, z: Rec)
    requires s.slots != [] && Stalled(s, a, b, |s.slots| - 1) && !s.slots[At(|s.slots|, 0)].full
    ensures s.head == |s.slots| && s.tail == 0 && s.prods[1] == Idle && s.cons == Resting && |s.prods| >= 2
    ensures var u, n := Overtaking(s, z), |s.slots|;
            && Can(u, Clear(1)) && Overtakes(u, Clear(1)) && u.out == [] && u.prods[0] == Waiting(0, a)
            && u.prods[1] == Admitted(n, z) && |u.recs| == n + 1 && u.recs[0] == a && u.recs[n] == z && u.tail == 1
            && forall i | 0 < i < n :: u.recs[i] == b
  {
    assert At(|s.slots|, |s.slots|) == At(|s.slots|, 0);
  }

  /** With two producers, one record more than there are slots is enough to deliver out of order. */
  lemma OutOfOrder(n: nat, m: nat) returns (bad: seq<Step>)
    requires n > 0 && m >= 2
    ensures Legal(Start(n, m), bad) && |Exec(Start(n, m), bad).recs| == n + 1
    ensures !(Exec(Start(n, m), bad).out <= Exec(Start(n, m), bad).recs)
  {
    hide Start, Exec, Legal, Orderly, Can, Overtakes;
    var r := OvertakingIsReachable(n, m, [1, 1, 1, 1], [2, 2, 2, 2], [2, 2, 2, 2]);
    bad := OvertakingMisdelivers(n, m, r, 1);
    assert Exec(Start(n, m), bad).out[0] != Exec(Start(n, m), bad).recs[0];
  }

  /** The exact condition: every run of the ring delivers in ticket order if and only if there
      is at most one producer. */
  lemma InOrderIff(n: nat, m: nat)
    requires n > 0
    ensures (forall run | Legal(Start(n, m), run) :: Exec(Start(n, m), run).out <= Exec(Start(n, m), run).recs)
            <==> m <= 1
  {
    if m <= 1 {
      forall run | Legal(Start(n, m), run)
        ensures Exec(Start(n, m), run).out <= Exec(Start(n, m), run).recs
      {
        OneProducerIsOrderly(n, m, run);
        DeliveredInOrder(n, m, run);
      }
    } else {
      var bad := OutOfOrder(n, m);
    }
  }

  lemma StepRecords(s: Ring, a: Step)
    requires s.slots != [] && Can(s, a)
    ensures |s.recs| <= |Do(s, a).recs|
  {
    hide At;
  }

  /** As long as there are no more records than slots, no ticket is a lap ahead of another. */
  lemma {:induction false} FewAreOrderly(n: nat, m: nat, run: seq<Step>)
    requires n > 0 && Legal(Start(n, m), run) && |Exec(Start(n, m), run).recs| <= n
    ensures Orderly(Start(n, m), run)
    decreases |run|
  {
    if run != [] {
      var r, a := run[..|run| - 1], run[|run| - 1];
      StepRecords(Exec(Start(n, m), r), a);
      FewAreOrderly(n, m, r);
      RunKeeps(n, m, r);
      TicketsInRange(Exec(Start(n, m), r), a);
    }
  }

  lemma TicketsInRange(s: Ring, a: Step)
    requires Inv(s) && Can(s, a) && |s.recs| <= |s.slots|
    ensures !Overtakes(s, a)
  {
    if a.Clear? {
      assert ProducerOk(s, a.p);
    }
  }

  /** The exact condition with the number of records: every run that pushes at most `k` records
      delivers in ticket order if and only if there is at most one producer or the ring has a slot
      for each record. */
  lemma InOrderUpToIff(n: nat, m: nat, k: nat)
    requires n > 0
    ensures (forall run | Legal(Start(n, m), run) && |Exec(Start(n, m), run).recs| <= k ::
               Exec(Start(n, m), run).out <= Exec(Start(n, m), run).recs) <==> m <= 1 || k <= n
  {
    if m <= 1 || k <= n {
      forall run | Legal(Start(n, m), run) && |Exec(Start(n, m), run).recs| <= k
        ensures Exec(Start(n, m), run).out <= Exec(Start(n, m), run).recs
      {
        if m <= 1 {
          OneProducerIsOrderly(n, m, run);
        } else {
          FewAreOrderly(n, m, run);
        }
        DeliveredInOrder(n, m, run);
      }
    } else {
      var bad := OutOfOrder(n, m);
    }
  }

  // ---- Overtaking loses records ----

  /** No producer is storing into a slot that is full. */
  ghost predicate NoOverwrite(s: Ring)
    requires s.slots != []
  {
    forall p | 0 <= p < |s.prods| && s.prods[p].Storing? :: !s.slots[At(|s.slots|, s.prods[p].h)].full
  }

  /** Both producers find the slot clear before either stores; then the overtaker stores. */
  lemma BothStore(s0: Ring, run: seq<Step>, a: Rec, z: Rec) returns (r: seq<Step>)
    requires s0.slots != [] && Legal(s0, run)
    requires var s, n := Exec(s0, run), |s0.slots|;
             && |s.prods| >= 2 && s.prods[0] == Waiting(0, a) && s.prods[1] == Admitted(n, z) && |z| == 4 && |a| == 4
             && s.tail == 1 && !s.slots[0].full && |s.slots[0].lanes| == 4
    ensures Legal(s0, r)
    ensures var s, n := Exec(s0, run), |s0.slots|;
            Exec(s0, r) == s.(slots := s.slots[0 := Slot(true, z)], stored := s.stored + {n},
                              prods := s.prods[0 := Storing(0, a, 3)][1 := Idle])
  {
    assert At(|s0.slots|, |s0.slots|) == 0 && At(|s0.slots|, 0) == 0;
    hide At;
    Extend(s0, run, Admit(0));
    var r1 := run + [Admit(0)];
    Extend(s0, r1, Clear(0));
    var r2 := r1 + [Clear(0)];
    Extend(s0, r2, Clear(1));
    var r3 := r2 + [Clear(1)];
    r := StoresAll(s0, r3, 1);
  }

  /** A run after which the first producer is about to store over the second's record. */
  lemma OverwriteIsReachable(n: nat, m: nat, a: Rec, b: Rec, z: Rec) returns (r: seq<Step>)
    requires n > 0 && m >= 2 && |a| == 4 && |b| == 4 && |z| == 4
    ensures Legal(Start(n, m), r)
    ensures var s := Exec(Start(n, m), r);
            && |s.prods| >= 2 && s.prods[0] == Storing(0, a, 3) && s.prods[1] == Idle && s.slots[0] == Slot(true, z)
            && n in s.stored && |s.recs| == n + 1 && s.recs[n] == z && s.out == []
            && forall j | 0 < j < n && s.slots[j].full :: s.slots[j].lanes == b
  {
    r := OvertakingIsReachable(n, m, a, b, z);
    RunKeeps(n, m, r);
    var s := Exec(Start(n, m), r);
    ClearSlots(s, n);
    assert forall j | 0 < j < n && s.slots[j].full :: s.slots[j].lanes == s.recs[j] == b;
    hide Inv;
    r := BothStore(Start(n, m), r, a, z);
  }

  /** Before anything is delivered, slot `j` belongs to ticket `j`. */
  lemma ClearSlots(s: Ring, n: nat)
    requires Inv(s) && n == |s.slots| && s.out == [] && Can(s, Clear(1)) && s.prods[1].h == n && !s.cons.Zeroing?
    ensures !s.slots[0].full && |s.slots[0].lanes| == 4
    ensures forall j | 0 < j < n && s.slots[j].full :: j < |s.recs| && s.slots[j].lanes == s.recs[j]
  {
    assert At(n, n) == 0 && SlotOk(s, 0);
    forall j | 0 < j < n && s.slots[j].full
      ensures j < |s.recs| && s.slots[j].lanes == s.recs[j]
    {
      assert At(n, j) == j && SlotOk(s, j);
    }
  }

  /** The exact condition: no run ever stores into a full slot if and only if there is at most one
      producer. */
  lemma NoOverwriteIff(n: nat, m: nat)
    requires n > 0
    ensures (forall run | Legal(Start(n, m), run) :: NoOverwrite(Exec(Start(n, m), run))) <==> m <= 1
  {
    if m <= 1 {
      forall run | Legal(Start(n, m), run)
        ensures NoOverwrite(Exec(Start(n, m), run))
      {
        OneProducerIsOrderly(n, m, run);
        DeliveredInOrder(n, m, run);
      }
    } else {
      var r := OverwriteIsReachable(n, m, [1, 1, 1, 1], [2, 2, 2, 2], [3, 3, 3, 3]);
      var s := Exec(Start(n, m), r);
      assert At(n, s.prods[0].h) == 0;
      assert !NoOverwrite(s);
    }
  }

  /** The same with the number of records. */
  lemma NoOverwriteUpToIff(n: nat, m: nat, k: nat)
    requires n > 0
    ensures (forall run | Legal(Start(n, m), run) && |Exec(Start(n, m), run).recs| <= k ::
               NoOverwrite(Exec(Start(n, m), run))) <==> m <= 1 || k <= n
  {
    if m <= 1 || k <= n {
      forall run | Legal(Start(n, m), run) && |Exec(Start(n, m), run).recs| <= k
        ensures NoOverwrite(Exec(Start(n, m), run))
      {
        if m <= 1 {
          OneProducerIsOrderly(n, m, run);
        } else {
          FewAreOrderly(n, m, run);
        }
        DeliveredInOrder(n, m, run);
      }
    } else {
      var r := OverwriteIsReachable(n, m, [1, 1, 1, 1], [2, 2, 2, 2], [3, 3, 3, 3]);
      var s := Exec(Start(n, m), r);
      assert At(n, s.prods[0].h) == 0;
      assert !NoOverwrite(s);
    }
  }

  /** A record is gone: the ticket was stored and not delivered, but no slot holds the record. */
  ghost predicate Lost(s: Ring, h: nat) {
    && h in s.stored && |s.out| <= h < |s.recs|
    && forall j | 0 <= j < |s.slots| && s.slots[j].full :: s.slots[j].lanes != s.recs[h]
  }

  /** With two or more producers a stored record can be lost, in a ring of any size. */
  lemma RecordCanBeLost(n: nat, m: nat) returns (r: seq<Step>)
    requires n > 0 && m >= 2
    ensures Legal(Start(n, m), r) && Lost(Exec(Start(n, m), r), n)
  {
    r := OverwriteIsReachable(n, m, [1, 1, 1, 1], [2, 2, 2, 2], [3, 3, 3, 3]);
    assert At(n, 0) == 0;
    hide At;
    r := StoresAll(Start(n, m), r, 0);
  }
}
