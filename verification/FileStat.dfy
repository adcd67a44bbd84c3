/** The probe loops of the open-file table over a real array, as one thread runs them. */
module FileStat {
  import opened Options
  import opened W = StateWord
  import opened Probing
  import opened FileTable
  import opened TableMap

  /** The first free slot on the walk of `f`, from round `i` on. */
  function FirstFree(slots: seq<Slot>, f: nat, i: nat): (r: Option<nat>)
    requires |slots| == 2048
    ensures r.Some? ==> r.value < 2048 && slots[r.value].word == Free
    ensures r.None? <==> forall k | i <= k < 22 :: slots[Probe(f, k)].word != Free
    decreases 22 - i
  {
    if i >= 22 then None
    else if slots[Probe(f, i)].word == Free then Some(Probe(f, i))
    else FirstFree(slots, f, i + 1)
  }

  class FileStats {
    const stat: array<Slot>

    constructor ()
      ensures fresh(stat) && stat.Length == 2048 && forall j | 0 <= j < 2048 :: stat[j] == ZERO
    {
      stat := new Slot[2048](_ => ZERO);
    }

    /** file_addfile: takes the first free slot of the walk and fills it; nothing if there is none. */
    method AddFile(fileno: nat, rec: Rest) returns (r: Option<nat>)
      requires stat.Length == 2048
      modifies stat
      ensures r == FirstFree(old(stat[..]), fileno, 0)
      ensures stat[..] == if r.Some? then old(stat[..])[r.value := Slot(Init, fileno, rec)] else old(stat[..])
    {
      hide Scramble;
      var i, hash := 0, Seed(fileno, 0);
      while i < 22
        invariant 0 <= i <= 22 && hash == Seed(fileno, i)
        invariant FirstFree(old(stat[..]), fileno, i) == FirstFree(old(stat[..]), fileno, 0)
        invariant stat[..] == old(stat[..])
      {
        hash := Scramble(hash);
        var slot := hash % 2048;
        assert slot == Probe(fileno, i);
        assert stat[slot] == old(stat[..])[slot];
        if stat[slot].word == Free {
          stat[slot] := stat[slot].(word := Claimed);
          stat[slot] := Slot(Init, fileno, rec);
          return Some(slot);
        }
        i := i + 1;
      }
      return None;
    }

    /** file_getstats. */
    method GetStats(fileno: nat) returns (r: Option<nat>)
      requires stat.Length == 2048
      ensures r == Find(stat[..], fileno, 0)
    {
      hide Scramble;
      var i, hash := 0, Seed(fileno, 0);
      while i < 22
        invariant 0 <= i <= 22 && hash == Seed(fileno, i)
        invariant Find(stat[..], fileno, i) == Find(stat[..], fileno, 0)
      {
        hash := Scramble(hash);
        var slot := hash % 2048;
        assert slot == Probe(fileno, i);
        if stat[slot].file == fileno {
          return Some(slot);
        }
        i := i + 1;
      }
      return None;
    }
  }

  /** What is added is found, in the slot it was put in, as long as no earlier slot of the walk
      carries the same number. */
  lemma {:induction false} AddedIsFound(slots: seq<Slot>, f: nat, rec: Rest, i: nat)
    requires |slots| == 2048 && FirstFree(slots, f, i).Some?
    requires forall j | 0 <= j < 2048 :: slots[j].file != f
    ensures Find(slots[FirstFree(slots, f, i).value := Slot(Init, f, rec)], f, i) == FirstFree(slots, f, i)
    decreases 22 - i
  {
    hide Probe;
    if slots[Probe(f, i)].word != Free {
      AddedIsFound(slots, f, rec, i + 1);
    }
  }
}
