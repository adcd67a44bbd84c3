/** In-order announcement of files (the sending half of iterate_files).

    Several threads number files from one counter and hand them over through a channel, so the
    numbers arrive out of order. The main loop keeps what arrived in a queue, sorts it, and
    announces the run of numbers that continues where the last announcement stopped.
 */
module Announcer {

  datatype Entry = Entry(fino: nat, name: string, size: nat)

  // ---- sort_by_key ----

  function Insert(e: Entry, v: seq<Entry>): seq<Entry> {
    if v == [] || e.fino <= v[0].fino then [e] + v else [v[0]] + Insert(e, v[1..])
  }

  function SortByKey(v: seq<Entry>): seq<Entry> {
    if v == [] then [] else Insert(v[0], SortByKey(v[1..]))
  }

  predicate Ordered(v: seq<Entry>) {
    forall i, j | 0 <= i < j < |v| :: v[i].fino <= v[j].fino
  }

  lemma {:induction false} InsertOrdered(e: Entry, v: seq<Entry>)
    requires Ordered(v)
    ensures Ordered(Insert(e, v)) && multiset(Insert(e, v)) == multiset(v) + multiset{e}
    decreases |v|
  {
    if v != [] && e.fino > v[0].fino {
      InsertOrdered(e, v[1..]);
      assert v == [v[0]] + v[1..];
      AllAtLeast(Insert(e, v[1..]), v[1..], e, v[0].fino);
    }
  }

  lemma AllAtLeast(t: seq<Entry>, v: seq<Entry>, e: Entry, x: nat)
    requires multiset(t) == multiset(v) + multiset{e} && e.fino >= x && forall j | 0 <= j < |v| :: v[j].fino >= x
    ensures forall j | 0 <= j < |t| :: t[j].fino >= x
  {
    forall j | 0 <= j < |t|
      ensures t[j].fino >= x
    {
      assert t[j] in multiset(t);
    }
  }

  lemma {:induction false} SortSorts(v: seq<Entry>)
    ensures Ordered(SortByKey(v)) && multiset(SortByKey(v)) == multiset(v)
    decreases |v|
  {
    if v != [] {
      SortSorts(v[1..]);
      InsertOrdered(v[0], SortByKey(v[1..]));
      assert v == [v[0]] + v[1..];
    }
  }

  /** The entries with number `x`, in order. */
  function WithNumber(v: seq<Entry>, x: nat): seq<Entry> {
    if v == [] then [] else (if v[0].fino == x then [v[0]] else []) + WithNumber(v[1..], x)
  }

  lemma WithNumberHead(e: Entry, t: seq<Entry>, x: nat)
    ensures WithNumber([e] + t, x) == (if e.fino == x then [e] else []) + WithNumber(t, x)
  {
    assert ([e] + t)[1..] == t;
  }

  lemma {:induction false} InsertIsStable(e: Entry, v: seq<Entry>, x: nat)
    ensures WithNumber(Insert(e, v), x) == (if e.fino == x then [e] else []) + WithNumber(v, x)
    decreases |v|
  {
    if v != [] && e.fino > v[0].fino {
      InsertIsStable(e, v[1..], x);
      WithNumberHead(v[0], Insert(e, v[1..]), x);
      WithNumberHead(v[0], v[1..], x);
      assert [v[0]] + v[1..] == v;
      hide WithNumber;
    } else {
      WithNumberHead(e, v, x);
    }
  }

  /** Entries with the same number keep their order. */
  lemma {:induction false} SortIsStable(v: seq<Entry>, x: nat)
    ensures WithNumber(SortByKey(v), x) == WithNumber(v, x)
    decreases |v|
  {
    if v != [] {
      SortIsStable(v[1..], x);
      InsertIsStable(v[0], SortByKey(v[1..]), x);
    }
  }

  // ---- One flush ----

  /** How many entries of the sorted queue one pass announces when `sent` numbers are out. */
  function RunLength(v: seq<Entry>, sent: nat): nat
    decreases |v|
  {
    if v == [] || (v[0].fino > 0 && v[0].fino != sent + 1) then 0
    else 1 + RunLength(v[1..], if v[0].fino > 0 then sent + 1 else sent)
  }

  /** The last number out after announcing the run. */
  function RunEnd(v: seq<Entry>, sent: nat): nat
    decreases |v|
  {
    if v == [] || (v[0].fino > 0 && v[0].fino != sent + 1) then sent
    else RunEnd(v[1..], if v[0].fino > 0 then sent + 1 else sent)
  }

  lemma {:induction false} RunBound(v: seq<Entry>, sent: nat)
    ensures RunLength(v, sent) <= |v|
    decreases |v|
  {
    if v != [] && !(v[0].fino > 0 && v[0].fino != sent + 1) {
      RunBound(v[1..], if v[0].fino > 0 then sent + 1 else sent);
    }
  }

  /** How many entries have a number. */
  function Numbered(v: seq<Entry>): nat {
    if v == [] then 0 else (if v[0].fino > 0 then 1 else 0) + Numbered(v[1..])
  }

  lemma NumberedHead(v: seq<Entry>, i: nat)
    requires 0 < i <= |v|
    ensures Numbered(v[..i]) == (if v[0].fino > 0 then 1 else 0) + Numbered(v[1..][..i - 1])
  {
    assert v[..i][1..] == v[1..][..i - 1];
  }

  /** One pass takes unnumbered entries and the next number in line, whichever comes, and stops at the
      first entry that is neither. */
  lemma {:induction false} RunIsExact(v: seq<Entry>, sent: nat)
    ensures var k := RunLength(v, sent);
            && k <= |v| && RunEnd(v, sent) == sent + Numbered(v[..k])
            && (forall i | 0 <= i < k :: v[i].fino == 0 || v[i].fino == sent + Numbered(v[..i]) + 1)
            && (k < |v| ==> v[k].fino > 0 && v[k].fino != RunEnd(v, sent) + 1)
    decreases |v|
  {
    var k := RunLength(v, sent);
    if k > 0 {
      var sent' := if v[0].fino > 0 then sent + 1 else sent;
      RunIsExact(v[1..], sent');
      NumberedHead(v, k);
      forall i | 0 <= i < k
        ensures v[i].fino == 0 || v[i].fino == sent + Numbered(v[..i]) + 1
      {
        if i > 0 {
          NumberedHead(v, i);
          assert v[1..][i - 1] == v[i];
        }
      }
    }
  }

  /** The announcing side of iterate_files: the pending queue, its running length `counter`,
      the number of files announced and the announcements themselves. */
  class Announcements {
    var vec: seq<Entry>
    var counter: int
    var counterMax: int
    var filesSent: nat
    var filesTotal: nat
    var out: seq<Entry>

    ghost predicate Valid()
      reads this
    {
      counter == |vec|
    }

    constructor ()
      ensures Valid() && vec == [] && counterMax == 8 && filesSent == 0 && filesTotal == 0 && out == []
    {
      vec, counter, counterMax, filesSent, filesTotal, out := [], 0, 8, 0, 0, [];
    }

    /** The inner receive loop: takes what has arrived, up to the batch limit. */
    method Receive(arrived: seq<Entry>) returns (taken: nat)
      requires Valid()
      modifies this
      ensures Valid() && taken <= |arrived|
      ensures vec == old(vec) + arrived[..taken] && filesTotal == old(filesTotal) + taken
      ensures filesSent == old(filesSent) && out == old(out)
      ensures taken < |arrived| ==> counter > old(counterMax)
      ensures taken > 1 ==> old(counter) + taken - 1 <= old(counterMax)
      ensures counterMax == if taken > 0 && counter > old(counterMax) then 300 else old(counterMax)
    {
      taken := 0;
      while taken < |arrived|
        invariant taken <= |arrived| && counter == |vec|
        invariant vec == old(vec) + arrived[..taken] && filesTotal == old(filesTotal) + taken
        invariant filesSent == old(filesSent) && out == old(out) && counterMax == old(counterMax)
        invariant counter == old(counter) + taken && (taken > 0 ==> counter <= counterMax)
      {
        assert arrived[..taken + 1] == arrived[..taken] + [arrived[taken]];
        vec := vec + [arrived[taken]];
        filesTotal := filesTotal + 1;
        counter := counter + 1;
        taken := taken + 1;
        if counter > counterMax {
          counterMax := 300;
          return;
        }
      }
    }

    /** Sorts the queue and announces the run that continues the numbers already out. */
    method Flush()
      requires Valid()
      modifies this
      ensures Valid() && filesTotal == old(filesTotal)
      ensures RunLength(SortByKey(old(vec)), old(filesSent)) <= |SortByKey(old(vec))|
      ensures vec == SortByKey(old(vec))[RunLength(SortByKey(old(vec)), old(filesSent))..]
      ensures out == old(out) + SortByKey(old(vec))[..RunLength(SortByKey(old(vec)), old(filesSent))]
      ensures filesSent == RunEnd(SortByKey(old(vec)), old(filesSent))
    {
      SortLength(vec);
      if counter > 0 {
        vec := SortByKey(vec);
        var iterations, sent := Walk(vec, filesSent);
        out := out + vec[..iterations];
        filesSent := sent;
        vec := vec[iterations..];
        counter := counter - iterations;
      } else {
        assert vec == [] && SortByKey(vec) == [];
      }
    }
  }

  lemma SortLength(v: seq<Entry>)
    ensures |SortByKey(v)| == |v|
  {
    SortSorts(v);
    assert |SortByKey(v)| == |multiset(SortByKey(v))| == |multiset(v)| == |v|;
  }

  /** The announcing loop: stops at the first number that does not continue the run. */
  method Walk(vec: seq<Entry>, filesSent: nat) returns (iterations: nat, sent: nat)
    ensures iterations == RunLength(vec, filesSent) <= |vec| && sent == RunEnd(vec, filesSent)
  {
    iterations, sent := 0, filesSent;
    RunBound(vec, filesSent);
    assert vec[0..] == vec;
    while iterations < |vec|
      invariant iterations <= |vec|
      invariant iterations + RunLength(vec[iterations..], sent) == RunLength(vec, filesSent)
      invariant RunEnd(vec[iterations..], sent) == RunEnd(vec, filesSent)
    {
      var a := vec[iterations].fino;
      if a > 0 && a != sent + 1 {
        break;
      }
      assert vec[iterations..][1..] == vec[iterations + 1..];
      iterations := iterations + 1;
      if a > 0 {
        sent := sent + 1;
      }
    }
  }

  // ---- What the announcements are, over whole runs ----

  /** A run of the main loop: batches of arrivals, each followed by a flush. */
  datatype Loop = Loop(vec: seq<Entry>, sent: nat, out: seq<Entry>)

  function Batch(s: Loop, arrived: seq<Entry>): Loop {
    var v := SortByKey(s.vec + arrived);
    RunBound(v, s.sent);
    Loop(v[RunLength(v, s.sent)..], RunEnd(v, s.sent), s.out + v[..RunLength(v, s.sent)])
  }

  function Batches(s: Loop, bs: seq<seq<Entry>>): Loop
    decreases |bs|
  {
    if bs == [] then s else Batch(Batches(s, bs[..|bs| - 1]), bs[|bs| - 1])
  }

  function Concat(bs: seq<seq<Entry>>): seq<Entry>
    decreases |bs|
  {
    if bs == [] then [] else Concat(bs[..|bs| - 1]) + bs[|bs| - 1]
  }

  predicate Distinct(v: seq<Entry>) {
    forall i, j | 0 <= i < j < |v| :: v[i].fino != v[j].fino
  }

  predicate Has(v: seq<Entry>, x: nat) { exists i | 0 <= i < |v| :: v[i].fino == x }

  /** The announcements so far are 1, 2, ..., sent, and what is pending lies beyond a gap. */
  ghost predicate InOrder(s: Loop) {
    && |s.out| == s.sent
    && (forall i | 0 <= i < |s.out| :: s.out[i].fino == i + 1)
    && (forall i | 0 <= i < |s.vec| :: s.vec[i].fino > s.sent + 1)
  }

  /** On a sorted queue of distinct numbers beyond `sent`, a pass announces exactly the numbers
      sent + 1, sent + 2, ... without a gap, and leaves only numbers beyond the next gap. */
  lemma {:induction false} RunShape(v: seq<Entry>, sent: nat)
    requires Ordered(v) && Distinct(v) && forall i | 0 <= i < |v| :: v[i].fino > sent
    ensures RunLength(v, sent) <= |v| && RunEnd(v, sent) == sent + RunLength(v, sent)
    ensures forall i | 0 <= i < RunLength(v, sent) :: v[i].fino == sent + i + 1
    ensures forall i | RunLength(v, sent) <= i < |v| :: v[i].fino > RunEnd(v, sent) + 1
    decreases |v|
  {
    if v != [] && v[0].fino == sent + 1 {
      var t := v[1..];
      forall i | 0 <= i < |t|
        ensures t[i].fino > sent + 1
      {
        assert v[0].fino <= v[i + 1].fino && v[0].fino != v[i + 1].fino;
      }
      RunShape(t, sent + 1);
      forall i | 0 <= i < RunLength(v, sent)
        ensures v[i].fino == sent + i + 1
      {
        assert i > 0 ==> v[i] == t[i - 1];
      }
      forall i | RunLength(v, sent) <= i < |v|
        ensures v[i].fino > RunEnd(v, sent) + 1
      {
        assert v[i] == t[i - 1];
      }
    } else if v != [] {
      assert forall i | 0 < i < |v| :: v[0].fino <= v[i].fino;
    }
  }

  /** Distinct numbers stay distinct under any reordering. */
  lemma DistinctReordered(v: seq<Entry>, u: seq<Entry>)
    requires Distinct(v) && multiset(u) == multiset(v)
    ensures Distinct(u)
  {
    forall i, j | 0 <= i < j < |u|
      ensures u[i].fino != u[j].fino
    {
      assert u[i] in multiset(u) && u[j] in multiset(u);
      var a :| 0 <= a < |v| && v[a] == u[i];
      var b :| 0 <= b < |v| && v[b] == u[j];
      if a == b {
        TwiceInReordering(u, v, i, j, a);
      }
    }
  }

  lemma OccursTwice(u: seq<Entry>, i: nat, j: nat)
    requires i < j < |u| && u[i] == u[j]
    ensures multiset(u)[u[i]] >= 2
  {
    assert u == u[..i] + [u[i]] + u[i + 1..j] + [u[j]] + u[j + 1..];
  }

  lemma TwiceInReordering(u: seq<Entry>, v: seq<Entry>, i: nat, j: nat, a: nat)
    requires multiset(u) == multiset(v) && i < j < |u| && u[i] == u[j] && a < |v| && v[a] == u[i]
    ensures exists b :: 0 <= b < |v| && b != a && v[b] == v[a]
  {
    var x := u[i];
    OccursTwice(u, i, j);
    assert v == v[..a] + [x] + v[a + 1..];
    assert x in multiset(v[..a]) || x in multiset(v[a + 1..]);
    if x in v[..a] {
      var b :| 0 <= b < a && v[..a][b] == x;
      assert v[b] == x;
    } else {
      var b :| 0 <= b < |v[a + 1..]| && v[a + 1..][b] == x;
      assert v[a + 1 + b] == x;
    }
  }

  lemma Apart(all: seq<Entry>, i: nat, j: nat)
    requires Distinct(all) && i < j < |all|
    ensures all[i].fino != all[j].fino
  {
  }

  /** A fresh number cannot be one of those already announced. */
  lemma Beyond(s: Loop, arrived: seq<Entry>, j: nat)
    requires InOrder(s) && Distinct(s.out + s.vec + arrived) && j < |arrived| && arrived[j].fino > 0
    ensures arrived[j].fino > s.sent
  {
    var x := arrived[j].fino;
    assert x <= s.sent ==> Has(s.out, x) by {
      if x <= s.sent {
        Announced(s, x);
      }
    }
    NotThere(s.out, s.vec, arrived, j);
  }

  lemma Announced(s: Loop, x: nat)
    requires InOrder(s) && 1 <= x <= s.sent
    ensures Has(s.out, x)
  {
    assert s.out[x - 1].fino == x;
  }

  lemma NotThere(u: seq<Entry>, v: seq<Entry>, w: seq<Entry>, j: nat)
    requires Distinct(u + v + w) && j < |w|
    ensures !Has(u, w[j].fino)
  {
    var all := u + v + w;
    assert all[|u| + |v| + j] == w[j];
    forall k | 0 <= k < |u|
      ensures u[k].fino != w[j].fino
    {
      assert all[k] == u[k];
      Apart(all, k, |u| + |v| + j);
    }
  }

  /** The sorted queue of a batch: distinct numbers, all beyond what is announced. */
  lemma SortedQueue(s: Loop, arrived: seq<Entry>)
    requires InOrder(s) && Distinct(s.out + s.vec + arrived)
    requires forall i | 0 <= i < |arrived| :: arrived[i].fino > 0
    ensures var v := SortByKey(s.vec + arrived);
            Ordered(v) && Distinct(v) && forall i | 0 <= i < |v| :: v[i].fino > s.sent
  {
    var q := s.vec + arrived;
    var v := SortByKey(q);
    SortSorts(q);
    TailDistinct(s.out, s.vec, arrived);
    DistinctReordered(q, v);
    forall i | 0 <= i < |v|
      ensures v[i].fino > s.sent
    {
      Member(q, v, i);
      var j :| 0 <= j < |q| && q[j] == v[i];
      if j >= |s.vec| {
        Beyond(s, arrived, j - |s.vec|);
      }
    }
  }

  lemma Member(q: seq<Entry>, v: seq<Entry>, i: nat)
    requires multiset(v) == multiset(q) && i < |v|
    ensures exists j :: 0 <= j < |q| && q[j] == v[i]
  {
    assert v[i] in multiset(v);
    assert v[i] in multiset(q);
  }

  lemma TailDistinct(u: seq<Entry>, v: seq<Entry>, w: seq<Entry>)
    requires Distinct(u + v + w)
    ensures Distinct(v + w)
  {
    var all := u + v + w;
    forall i, j | 0 <= i < j < |v + w|
      ensures (v + w)[i].fino != (v + w)[j].fino
    {
      assert (v + w)[i] == all[|u| + i] && (v + w)[j] == all[|u| + j];
    }
  }

  lemma BatchOrder(s: Loop, v: seq<Entry>)
    requires InOrder(s) && Ordered(v) && Distinct(v) && forall i | 0 <= i < |v| :: v[i].fino > s.sent
    ensures RunLength(v, s.sent) <= |v|
    ensures InOrder(Loop(v[RunLength(v, s.sent)..], RunEnd(v, s.sent), s.out + v[..RunLength(v, s.sent)]))
  {
    RunShape(v, s.sent);
    RunAppended(s, v, RunLength(v, s.sent), RunEnd(v, s.sent));
  }

  lemma RunAppended(s: Loop, v: seq<Entry>, n: nat, end: nat)
    requires InOrder(s) && n <= |v| && end == s.sent + n
    requires forall i | 0 <= i < n :: v[i].fino == s.sent + i + 1
    requires forall i | n <= i < |v| :: v[i].fino > end + 1
    ensures InOrder(Loop(v[n..], end, s.out + v[..n]))
  {
    var out, rest := s.out + v[..n], v[n..];
    forall i | 0 <= i < |out|
      ensures out[i].fino == i + 1
    {
      assert out[i] == if i < |s.out| then s.out[i] else v[i - |s.out|];
    }
    assert forall i | 0 <= i < |rest| :: rest[i] == v[n + i];
  }

  /** One batch keeps the order and neither loses nor repeats an entry. */
  lemma BatchKeeps(s: Loop, arrived: seq<Entry>)
    requires InOrder(s) && Distinct(s.out + s.vec + arrived)
    requires forall i | 0 <= i < |arrived| :: arrived[i].fino > 0
    ensures InOrder(Batch(s, arrived))
    ensures multiset(Batch(s, arrived).out) + multiset(Batch(s, arrived).vec)
            == multiset(s.out) + multiset(s.vec) + multiset(arrived)
  {
    SortedQueue(s, arrived);
    BatchOrder(s, SortByKey(s.vec + arrived));
    BatchConserves(s, arrived);
  }

  lemma BatchConserves(s: Loop, arrived: seq<Entry>)
    ensures multiset(Batch(s, arrived).out) + multiset(Batch(s, arrived).vec)
            == multiset(s.out) + multiset(s.vec) + multiset(arrived)
  {
    var v := SortByKey(s.vec + arrived);
    SortSorts(s.vec + arrived);
    RunBound(v, s.sent);
    Regroup(s.out, v, RunLength(v, s.sent), s.vec, arrived);
  }

  lemma Regroup(out: seq<Entry>, v: seq<Entry>, n: nat, vec: seq<Entry>, arrived: seq<Entry>)
    requires n <= |v| && multiset(v) == multiset(vec + arrived)
    ensures multiset(out + v[..n]) + multiset(v[n..]) == multiset(out) + multiset(vec) + multiset(arrived)
  {
    var a, b := v[..n], v[n..];
    assert v == a + b;
    assert multiset(v) == multiset(a) + multiset(b);
    assert multiset(out + a) == multiset(out) + multiset(a);
    assert multiset(vec + arrived) == multiset(vec) + multiset(arrived);
    assert (multiset(out) + multiset(a)) + multiset(b) == multiset(out) + (multiset(a) + multiset(b));
    assert (multiset(out) + multiset(vec)) + multiset(arrived) == multiset(out) + (multiset(vec) + multiset(arrived));
  }

  /** For every batching of distinct numbers in every order: what is announced is 1, 2, 3, ... in
      order, no entry is lost or repeated, and nothing announceable is kept back. */
  lemma {:induction false} AnnouncedInOrder(bs: seq<seq<Entry>>)
    requires Distinct(Concat(bs)) && forall i | 0 <= i < |Concat(bs)| :: Concat(bs)[i].fino > 0
    ensures InOrder(Batches(Loop([], 0, []), bs))
    ensures multiset(Batches(Loop([], 0, []), bs).out) + multiset(Batches(Loop([], 0, []), bs).vec)
            == multiset(Concat(bs))
    decreases |bs|
  {
    if bs != [] {
      var before, last := bs[..|bs| - 1], bs[|bs| - 1];
      var n := |Concat(before)|;
      assert Concat(bs)[..n] == Concat(before) && Concat(bs)[n..] == last;
      assert forall i | 0 <= i < n :: Concat(before)[i] == Concat(bs)[i];
      assert forall i | 0 <= i < |last| :: last[i] == Concat(bs)[n + i];
      AnnouncedInOrder(before);
      var s := Batches(Loop([], 0, []), before);
      assert multiset(s.out + s.vec + last) == multiset(Concat(bs));
      DistinctReordered(Concat(bs), s.out + s.vec + last);
      BatchKeeps(s, last);
    }
  }

  /** When the channel closes after the numbers 1..n have all come through, every file has been
      announced, in order, exactly once, and nothing is pending. */
  lemma AllAnnounced(bs: seq<seq<Entry>>, n: nat)
    requires Distinct(Concat(bs)) && forall i | 0 <= i < |Concat(bs)| :: 0 < Concat(bs)[i].fino <= n
    requires forall x | 1 <= x <= n :: Has(Concat(bs), x)
    ensures Batches(Loop([], 0, []), bs).vec == []
    ensures |Batches(Loop([], 0, []), bs).out| == n
    ensures forall i | 0 <= i < n :: Batches(Loop([], 0, []), bs).out[i].fino == i + 1
  {
    AnnouncedInOrder(bs);
    var s, all := Batches(Loop([], 0, []), bs), Concat(bs);
    assert s.sent >= n by {
      if s.sent < n {
        assert Has(all, s.sent + 1);
        NextIsOut(s, all);
      }
    }
    NothingBeyond(s, all, n);
  }

  /** The next number to announce is never among those received. */
  lemma NextIsOut(s: Loop, all: seq<Entry>)
    requires InOrder(s) && multiset(s.out) + multiset(s.vec) == multiset(all)
    ensures !Has(all, s.sent + 1)
  {
    forall i | 0 <= i < |all|
      ensures all[i].fino != s.sent + 1
    {
      assert all[i] in multiset(all);
      assert all[i] in multiset(s.out) || all[i] in multiset(s.vec);
    }
  }

  lemma WithinAll(v: seq<Entry>, rest: multiset<Entry>, all: seq<Entry>, n: nat)
    requires multiset(v) + rest == multiset(all) && forall i | 0 <= i < |all| :: all[i].fino <= n
    ensures forall i | 0 <= i < |v| :: v[i].fino <= n
  {
    forall i | 0 <= i < |v|
      ensures v[i].fino <= n
    {
      assert v[i] in multiset(v);
      assert v[i] in multiset(all);
    }
  }

  lemma EndsWithin(v: seq<Entry>, lo: nat, hi: nat)
    requires forall i | 0 <= i < |v| :: lo < v[i].fino <= hi
    ensures v == [] || lo < v[|v| - 1].fino <= hi
  {
  }

  lemma NothingBeyond(s: Loop, all: seq<Entry>, n: nat)
    requires InOrder(s) && multiset(s.out) + multiset(s.vec) == multiset(all) && s.sent >= n
    requires forall i | 0 <= i < |all| :: all[i].fino <= n
    ensures s.vec == [] && s.sent == n
  {
    WithinAll(s.vec, multiset(s.out), all, n);
    WithinAll(s.out, multiset(s.vec), all, n);
    EndsWithin(s.vec, s.sent + 1, n);
    EndsWithin(s.out, 0, n);
  }
}
