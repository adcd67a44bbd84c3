/** The 64-bit state word of a file-table slot.

    The word runs through 0, 0xBedFace, FS_INIT, FS_COMPLETE | FS_IO | worker bits,
    FS_COMPLETE, 0. The four phases are told apart here by constructors; `Bits` gives the
    machine word behind each, and the lemma shows that the bit operations and tests of the
    source mean on machine words what the constructors say.
 */
module StateWord {
  import opened Blocks

  const IO_BIT: nat := 31
  const COMPLETE_BIT: nat := 30

  /** Worker bits are 0..29: bit 30 is already FS_COMPLETE. */
  const MAX_WORKERS: nat := 30

  /** `Open(io, ids)` is FS_COMPLETE, FS_IO if `io`, and the bits of the workers `ids`. */
  datatype State = Free | Claimed | Init | Open(io: bool, ids: set<nat>)

  /** FS_COMPLETE alone: what the last worker to leave sees. */
  const COMPLETE: State := Open(false, {})

  /** `state & FS_IO`. */
  predicate HasIo(w: State) { w.Open? && w.io }

  /** `state | (1 << id)` on a word with FS_IO. */
  function Joined(w: State, id: nat): State
    requires HasIo(w)
  {
    Open(true, w.ids + {id})
  }

  /** `state & ~((1 << id) | FS_IO)`. */
  function Left(w: State, id: nat): State
  {
    if w.Open? then Open(false, w.ids - {id}) else w
  }

  /** The machine word, as the set of its one bits; 0xBedFace and 0xBAEBEE are spelled out. */
  function Bits(w: State): Word {
    match w
    case Free => {}
    case Claimed => {1, 2, 3, 6, 7, 9, 11, 12, 13, 14, 15, 16, 18, 19, 21, 22, 23, 24, 25, 27}
    case Init => {1, 2, 3, 5, 6, 7, 8, 9, 11, 13, 14, 15, 17, 19, 20, 21, 23}
    case Open(io, ids) => {COMPLETE_BIT} + (if io then {IO_BIT} else {}) + ids
  }

  predicate InRange(w: State) { w.Open? ==> forall id | id in w.ids :: id < MAX_WORKERS }

  /** Up to thirty workers, the machine word determines the phase and the worker set, the
      FS_IO test and the FS_COMPLETE comparison read them correctly, and `|` and `& ~` update
      them as stated. */
  lemma WordsFaithful(v: State, w: State, id: nat)
    requires InRange(v) && InRange(w) && id < MAX_WORKERS
    ensures Bits(v) == Bits(w) <==> v == w
    ensures IO_BIT in Bits(w) <==> HasIo(w)
    ensures HasIo(w) ==> Bits(Joined(w, id)) == Bits(w) + {id}
    ensures w.Open? ==> Bits(Left(w, id)) == Bits(w) - {id, IO_BIT}
    ensures w.Open? ==> (Bits(w) - {id, IO_BIT} == {COMPLETE_BIT} <==> Left(w, id) == COMPLETE)
  {
    assert 5 in Bits(Init) && 5 !in Bits(Claimed) && 1 in Bits(Init) && 1 in Bits(Claimed);
    if v.Open? {
      assert v.ids == Bits(v) - {COMPLETE_BIT, IO_BIT};
    }
    if w.Open? {
      assert w.ids == Bits(w) - {COMPLETE_BIT, IO_BIT};
      assert Bits(COMPLETE) == {COMPLETE_BIT};
      assert Left(w, id).ids == Bits(Left(w, id)) - {COMPLETE_BIT, IO_BIT};
    }
  }

  /** A thirty-first worker would break the scheme, whoever else is attached: its bit is
      FS_COMPLETE itself. Once it has left, the word never comes down to FS_COMPLETE again,
      whichever workers leave after it; and if another worker leaves with only the thirty-first
      still attached, that worker sees FS_COMPLETE and takes the file for finished. */
  lemma ThirtyWorkersIsTheLimit(io: bool, ids: set<nat>, id: nat)
    requires MAX_WORKERS in ids && id < MAX_WORKERS
    ensures forall later: set<nat> :: Bits(Open(io, ids)) - {MAX_WORKERS, IO_BIT} - later != {COMPLETE_BIT}
    ensures ids == {id, MAX_WORKERS} ==> Bits(Open(io, ids)) - {id, IO_BIT} == {COMPLETE_BIT}
  {
    forall later: set<nat>
      ensures Bits(Open(io, ids)) - {MAX_WORKERS, IO_BIT} - later != {COMPLETE_BIT}
    {
      assert COMPLETE_BIT !in Bits(Open(io, ids)) - {MAX_WORKERS, IO_BIT} - later;
      assert COMPLETE_BIT in {COMPLETE_BIT};
    }
  }
}
