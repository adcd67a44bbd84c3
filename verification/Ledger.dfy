/** The sender's ledger of files awaiting confirmation.

    The ledger maps a file number to the folded hash the sender computed, or to -1 while that is
    not known. Names come from the directory walk, hashes from the completion ring, and
    confirmations from the receiver, in any interleaving.
 */
module Ledger {

  const PENDING: int := -1

  datatype Mark = Mark(crc: int, name: string)

  type Book = map<nat, Mark>

  /** A file completed by the sender's workers, as it comes out of the completion channel. */
  datatype Completed = Completed(fino: nat, crc: nat)

  /** One entry of the receiver's confirmation message. */
  datatype Confirmed = Confirmed(fino: nat, crc: nat)

  /** A file is announced: its hash, if already known, stays. */
  function Announce(b: Book, f: nat, name: string): Book {
    b[f := Mark(if f in b then b[f].crc else PENDING, name)]
  }

  /** A completed file's hash is entered; its name, if already known, stays. */
  function Enter(b: Book, e: Completed): Book {
    b[e.fino := Mark(e.crc, if e.fino in b then b[e.fino].name else "")]
  }

  predicate Ready(b: Book, f: nat) {
    f in b && b[f].crc != PENDING
  }

  datatype Entered = Entered(book: Book, rest: seq<Completed>)

  /** Enters completions until file `f` is ready or none are left. */
  function EnterUntil(b: Book, fc: seq<Completed>, f: nat): Entered
    decreases |fc|
  {
    if Ready(b, f) || fc == [] then Entered(b, fc) else EnterUntil(Enter(b, fc[0]), fc[1..], f)
  }

  datatype Outcome = Outcome(book: Book, filesOk: nat, rest: seq<Completed>, ok: bool)

  /** Settles one confirmation message entry by entry; fails at the first entry that never
      becomes ready or whose hash differs. */
  function Settle(b: Book, filesOk: nat, fc: seq<Completed>, es: seq<Confirmed>): Outcome
    decreases |es|
  {
    if es == [] then Outcome(b, filesOk, fc, true)
    else if es[0].fino == 0 && es[0].crc == 0 then Settle(b, filesOk + 1, fc, es[1..])
    else
      var e := EnterUntil(b, fc, es[0].fino);
      if !Ready(e.book, es[0].fino) || e.book[es[0].fino].crc != es[0].crc
      then Outcome(e.book, filesOk, e.rest, false)
      else Settle(e.book - {es[0].fino}, filesOk + 1, e.rest, es[1..])
  }

  /** The hash of the file was in the ledger or in the completion channel. */
  predicate Known(b: Book, fc: seq<Completed>, f: nat, crc: int) {
    (f in b && b[f].crc == crc) || exists i | 0 <= i < |fc| :: fc[i].fino == f && fc[i].crc == crc
  }

  /** Entering completions invents no hash and never enters the pending mark. */
  lemma {:induction false} EnterOrigin(b: Book, fc: seq<Completed>, f: nat, g: nat, crc: nat)
    requires Known(EnterUntil(b, fc, f).book, EnterUntil(b, fc, f).rest, g, crc)
    ensures Known(b, fc, g, crc)
    decreases |fc|
  {
    if !Ready(b, f) && fc != [] {
      EnterOrigin(Enter(b, fc[0]), fc[1..], f, g, crc);
      if !(g in b && b[g].crc == crc) {
        if g == fc[0].fino && fc[0].crc == crc {
          assert Known(b, fc, g, crc);
        } else {
          var i :| 0 <= i < |fc[1..]| && fc[1..][i].fino == g && fc[1..][i].crc == crc;
          assert fc[i + 1].fino == g && fc[i + 1].crc == crc;
        }
      }
    }
  }

  /** A message that settles counts each of its files once, and each file it counts had exactly
      the confirmed hash entered by the sender (or is the unnumbered empty file). */
  lemma {:induction false} SettledOnlyOnMatch(b: Book, filesOk: nat, fc: seq<Completed>, es: seq<Confirmed>)
    requires Settle(b, filesOk, fc, es).ok
    ensures Settle(b, filesOk, fc, es).filesOk == filesOk + |es|
    ensures forall j | 0 <= j < |es| ::
              (es[j].fino == 0 && es[j].crc == 0) || Known(b, fc, es[j].fino, es[j].crc)
    decreases |es|
  {
    if es != [] {
      if es[0].fino == 0 && es[0].crc == 0 {
        SettledOnlyOnMatch(b, filesOk + 1, fc, es[1..]);
        forall j | 0 <= j < |es|
          ensures (es[j].fino == 0 && es[j].crc == 0) || Known(b, fc, es[j].fino, es[j].crc)
        {
          assert j > 0 ==> es[1..][j - 1] == es[j];
        }
      } else {
        var f := es[0].fino;
        var e := EnterUntil(b, fc, f);
        SettledOnlyOnMatch(e.book - {f}, filesOk + 1, e.rest, es[1..]);
        forall j | 0 <= j < |es|
          ensures (es[j].fino == 0 && es[j].crc == 0) || Known(b, fc, es[j].fino, es[j].crc)
        {
          if j > 0 {
            assert es[1..][j - 1] == es[j];
          }
          if !(es[j].fino == 0 && es[j].crc == 0) {
            assert Known(e.book, e.rest, es[j].fino, es[j].crc);
            EnterOrigin(b, fc, f, es[j].fino, es[j].crc);
          }
        }
      }
    }
  }

  // ---- When a message settles ----

  /** Each file was completed once, and no completion in the channel has been entered yet. */
  ghost predicate Unentered(b: Book, fc: seq<Completed>) {
    && (forall i, j | 0 <= i < j < |fc| :: fc[i].fino != fc[j].fino)
    && (forall i | 0 <= i < |fc| :: !Ready(b, fc[i].fino))
  }

  /** The unnumbered empty file, which is confirmed without a look at the ledger. */
  predicate Skipped(x: Confirmed) { x.fino == 0 && x.crc == 0 }

  ghost predicate AllKnown(b: Book, fc: seq<Completed>, es: seq<Confirmed>) {
    forall j | 0 <= j < |es| :: Skipped(es[j]) || Known(b, fc, es[j].fino, es[j].crc)
  }

  /** No file is confirmed twice. */
  ghost predicate Apart(es: seq<Confirmed>) {
    forall i, j | 0 <= i < j < |es| && !Skipped(es[i]) && !Skipped(es[j]) :: es[i].fino != es[j].fino
  }

  lemma EnterOne(b: Book, fc: seq<Completed>, g: nat, crc: nat)
    requires fc != [] && Unentered(b, fc)
    ensures Unentered(Enter(b, fc[0]), fc[1..])
    ensures Known(Enter(b, fc[0]), fc[1..], g, crc) <==> Known(b, fc, g, crc)
  {
    var b', r := Enter(b, fc[0]), fc[1..];
    assert forall i | 0 <= i < |r| :: r[i] == fc[i + 1];
    if Known(b, fc, g, crc) && !(g in b && b[g].crc == crc) {
      var i :| 0 <= i < |fc| && fc[i].fino == g && fc[i].crc == crc;
      assert i == 0 || r[i - 1] == fc[i];
    }
  }

  /** Entering moves hashes from the channel to the ledger and loses none; it stops when the hash of
      the file is there or nothing is left. */
  lemma {:induction false} EnterKeepsKnown(b: Book, fc: seq<Completed>, f: nat, g: nat, crc: nat)
    requires Unentered(b, fc)
    ensures var e := EnterUntil(b, fc, f);
            && Unentered(e.book, e.rest) && (Ready(e.book, f) || e.rest == [])
            && (Known(e.book, e.rest, g, crc) <==> Known(b, fc, g, crc))
    decreases |fc|
  {
    if !Ready(b, f) && fc != [] {
      EnterOne(b, fc, g, crc);
      EnterKeepsKnown(Enter(b, fc[0]), fc[1..], f, g, crc);
    }
  }

  /** The test of one entry passes exactly if its hash is in the ledger or in the channel. */
  lemma EntryPassesIff(b: Book, fc: seq<Completed>, x: Confirmed)
    requires Unentered(b, fc)
    ensures var e := EnterUntil(b, fc, x.fino);
            Ready(e.book, x.fino) && e.book[x.fino].crc == x.crc <==> Known(b, fc, x.fino, x.crc)
  {
    hide EnterUntil;
    EnterKeepsKnown(b, fc, x.fino, x.fino, x.crc);
  }

  /** What is known once the file of `x` has been settled: everything but that file. */
  lemma KnownAfter(b: Book, fc: seq<Completed>, x: Confirmed, g: nat, crc: nat)
    requires Unentered(b, fc) && Known(b, fc, x.fino, x.crc)
    ensures var e := EnterUntil(b, fc, x.fino);
            && Unentered(e.book - {x.fino}, e.rest)
            && (Known(e.book - {x.fino}, e.rest, g, crc) <==> g != x.fino && Known(b, fc, g, crc))
  {
    hide EnterUntil;
    EntryPassesIff(b, fc, x);
    EnterKeepsKnown(b, fc, x.fino, g, crc);
  }

  lemma MatchTail(b: Book, fc: seq<Completed>, es: seq<Confirmed>)
    requires Unentered(b, fc) && es != [] && !Skipped(es[0]) && Known(b, fc, es[0].fino, es[0].crc)
    ensures var e := EnterUntil(b, fc, es[0].fino);
            && Unentered(e.book - {es[0].fino}, e.rest)
            && (AllKnown(e.book - {es[0].fino}, e.rest, es[1..]) && Apart(es[1..])
                <==> AllKnown(b, fc, es) && Apart(es))
  {
    hide EnterUntil;
    var x, e := es[0], EnterUntil(b, fc, es[0].fino);
    KnownAfter(b, fc, x, 0, 0);
    forall j | 0 < j < |es|
      ensures es[1..][j - 1] == es[j]
      ensures Known(e.book - {x.fino}, e.rest, es[j].fino, es[j].crc)
              <==> es[j].fino != x.fino && Known(b, fc, es[j].fino, es[j].crc)
    {
      KnownAfter(b, fc, x, es[j].fino, es[j].crc);
    }
    hide Known;
    TailsApart(es);
    AllKnownTail(b, fc, es);
  }

  /** The file of the first entry is in no later one. */
  ghost predicate NotAgain(es: seq<Confirmed>)
    requires es != []
  {
    forall j | 0 < j < |es| && !Skipped(es[j]) :: es[j].fino != es[0].fino
  }

  lemma TailsApart(es: seq<Confirmed>)
    requires es != []
    ensures Apart(es) <==> Apart(es[1..]) && (Skipped(es[0]) || NotAgain(es))
  {
    var r := es[1..];
    assert forall j | 0 < j < |es| :: r[j - 1] == es[j];
    if Apart(r) && (Skipped(es[0]) || NotAgain(es)) {
      forall i, j | 0 <= i < j < |es| && !Skipped(es[i]) && !Skipped(es[j])
        ensures es[i].fino != es[j].fino
      {
        if i > 0 {
          assert r[i - 1] == es[i] && r[j - 1] == es[j];
        }
      }
    }
  }

  lemma AllKnownTail(b: Book, fc: seq<Completed>, es: seq<Confirmed>)
    requires es != []
    ensures AllKnown(b, fc, es) <==>
            (Skipped(es[0]) || Known(b, fc, es[0].fino, es[0].crc)) && AllKnown(b, fc, es[1..])
  {
    hide Known;
    var r := es[1..];
    assert forall j | 0 < j < |es| :: r[j - 1] == es[j];
  }

  /** A message settles if and only if every file in it has its confirmed hash in the ledger or still
      in the completion channel, and none is in it twice. Otherwise the session fails. */
  lemma {:induction false} SettlesIff(b: Book, filesOk: nat, fc: seq<Completed>, es: seq<Confirmed>)
    requires Unentered(b, fc)
    ensures Settle(b, filesOk, fc, es).ok <==> AllKnown(b, fc, es) && Apart(es)
    decreases |es|
  {
    if es != [] {
      hide EnterUntil, Known, AllKnown, Apart, Unentered;
      AllKnownTail(b, fc, es);
      if Skipped(es[0]) {
        TailsApart(es);
        SettlesIff(b, filesOk + 1, fc, es[1..]);
      } else {
        EntryPassesIff(b, fc, es[0]);
        if Known(b, fc, es[0].fino, es[0].crc) {
          var e := EnterUntil(b, fc, es[0].fino);
          MatchTail(b, fc, es);
          SettlesIff(e.book - {es[0].fino}, filesOk + 1, e.rest, es[1..]);
        }
      }
    }
  }

  /** The loop enters no more completions than it needs: the file is not ready before the last one. */
  lemma {:induction false} EnterStopsFirst(b: Book, fc: seq<Completed>, f: nat)
    ensures var e := EnterUntil(b, fc, f);
            && |e.rest| <= |fc| && e.rest == fc[|fc| - |e.rest|..] && e.book == EnterAll(b, fc[..|fc| - |e.rest|])
            && (Ready(e.book, f) || e.rest == [])
            && forall k | 0 <= k < |fc| - |e.rest| :: !Ready(EnterAll(b, fc[..k]), f)
    decreases |fc|
  {
    if !Ready(b, f) && fc != [] {
      var b', t := Enter(b, fc[0]), fc[1..];
      EnterStopsFirst(b', t, f);
      var n := |fc| - |EnterUntil(b, fc, f).rest|;
      forall k | 0 < k <= n
        ensures EnterAll(b, fc[..k]) == EnterAll(b', t[..k - 1])
      {
        assert fc[..k][0] == fc[0] && fc[..k][1..] == t[..k - 1];
      }
    }
  }

  function EnterAll(b: Book, fc: seq<Completed>): Book
    decreases |fc|
  {
    if fc == [] then b else EnterAll(Enter(b, fc[0]), fc[1..])
  }

  /** Name and hash of a file can come in either order. */
  lemma EntriesCommute(b: Book, f: nat, name: string, crc: nat)
    ensures Enter(Announce(b, f, name), Completed(f, crc)) == Announce(Enter(b, Completed(f, crc)), f, name)
    ensures Enter(Announce(b, f, name), Completed(f, crc)) == b[f := Mark(crc, name)]
  {
    assert Enter(Announce(b, f, name), Completed(f, crc)) == b[f := Mark(crc, name)];
    assert Announce(Enter(b, Completed(f, crc)), f, name) == b[f := Mark(crc, name)];
  }

  class Confirmations {
    var hm: Book
    var filesOk: nat
    var fcOut: seq<Completed>

    constructor ()
      ensures hm == map[] && filesOk == 0 && fcOut == []
    {
      hm, filesOk, fcOut := map[], 0, [];
    }

    /** The ledger part of receiving a file name from the directory walk. */
    method OnName(fino: nat, name: string)
      modifies `hm
      ensures hm == Announce(old(hm), fino, name)
    {
      if fino in hm {
        var crc := hm[fino].crc;
        hm := hm[fino := Mark(crc, name)];
      } else {
        hm := hm[fino := Mark(-1, name)];
      }
    }

    /** handle_msg_from_receiver for a confirmation message: 1 if every entry was settled, -1 if
        the completion channel ran dry or a hash differed. */
    method OnFileStat(es: seq<Confirmed>) returns (res: int)
      modifies this
      ensures var r := Settle(old(hm), old(filesOk), old(fcOut), es);
              hm == r.book && filesOk == r.filesOk && fcOut == r.rest && res == if r.ok then 1 else -1
    {
      var i := 0;
      assert es[0..] == es;
      while i < |es|
        invariant 0 <= i <= |es|
        invariant Settle(hm, filesOk, fcOut, es[i..]) == Settle(old(hm), old(filesOk), old(fcOut), es)
      {
        var e := es[i];
        assert es[i..][1..] == es[i + 1..];
        i := i + 1;
        if e.fino == 0 && e.crc == 0 {
          filesOk := filesOk + 1;
          continue;
        }
        var ready := Await(e.fino);
        if !ready {
          return -1;
        }
        if hm[e.fino].crc != e.crc {
          return -1;
        }
        filesOk := filesOk + 1;
        hm := hm - {e.fino};
      }
      return 1;
    }

    /** The inner loop: enters completions until the file's own hash is known. */
    method Await(fino: nat) returns (ready: bool)
      modifies `hm, `fcOut
      ensures hm == EnterUntil(old(hm), old(fcOut), fino).book
      ensures fcOut == EnterUntil(old(hm), old(fcOut), fino).rest
      ensures ready == Ready(hm, fino)
    {
      while true
        invariant EnterUntil(hm, fcOut, fino) == EnterUntil(old(hm), old(fcOut), fino)
        decreases |fcOut|
      {
        if fino in hm {
          if hm[fino].crc != -1 {
            return true;
          }
        }
        if fcOut == [] {
          return false;
        }
        var e := fcOut[0];
        fcOut := fcOut[1..];
        if e.fino in hm {
          hm := hm[e.fino := Mark(e.crc, hm[e.fino].name)];
        } else {
          hm := hm[e.fino := Mark(e.crc, "")];
        }
        if fino == e.fino {
          return true;
        }
      }
    }
  }
}
