/** The receiver's bookkeeping of announced files.

    Two kinds of messages describe a file: one names it and one gives the block count it must
    reach. They come from different threads of the sender and either may arrive first, so
    both are merged into one record per file number. Files are opened in the order they were
    named and closed in the order their counts came in.
 */
module ReceiverControl {
  import opened Blocks
  import opened Options

  /** One file as the receiver knows it; `attr` stands for the mode, owner and time fields,
      and `blocks` is -1 until the count is known. */
  datatype Info = Info(path: string, fino: nat, sz: int, blocks: int, fd: int, attr: nat, crc: nat)

  const UNKNOWN: Info := Info("", 0, 0, -1, 0, 0, 0)

  datatype Message =
    | Name(fino: nat, path: string, sz: int, attr: nat)
    | Count(fino: nat, blocks: int, sz: int)

  type Files = map<nat, Info>

  function InfoOf(h: Files, f: nat): Info {
    if f in h then h[f] else UNKNOWN
  }

  function Named(fi: Info, fino: nat, path: string, sz: int, attr: nat): Info {
    fi.(path := path, sz := if fi.sz == 0 then sz else fi.sz, fino := fino, attr := attr)
  }

  function Counted(fi: Info, blocks: int, sz: int): Info {
    fi.(blocks := blocks, sz := if sz > 0 then sz else fi.sz)
  }

  function Merge(h: Files, m: Message): Files {
    match m
    case Name(f, path, sz, attr) => h[f := Named(InfoOf(h, f), f, path, sz, attr)]
    case Count(f, blocks, sz) => h[f := Counted(InfoOf(h, f), blocks, sz)]
  }

  function MergeAll(h: Files, ms: seq<Message>): Files
    decreases |ms|
  {
    if ms == [] then h else MergeAll(Merge(h, ms[0]), ms[1..])
  }

  // ---- The order in which names and counts arrive does not matter ----

  /** A name and a count commute, whatever is known already and whichever files they are about. */
  lemma MergeCommutes(h: Files, n: Message, k: Message)
    requires n.Name? && k.Count?
    ensures Merge(Merge(h, n), k) == Merge(Merge(h, k), n)
  {
    assert Merge(Merge(h, n), k).Keys == Merge(Merge(h, k), n).Keys;
  }

  /** The record of a file once both its messages are in, whichever came first: the name's fields, the
      count, and the size of the count unless that is zero. */
  lemma MergedRecord(h: Files, f: nat, path: string, sz: int, attr: nat, blocks: int, ksz: nat)
    requires f !in h
    ensures var r := Info(path, f, if ksz > 0 then ksz else sz, blocks, 0, attr, 0);
            && Merge(Merge(h, Name(f, path, sz, attr)), Count(f, blocks, ksz)) == h[f := r]
            && Merge(Merge(h, Count(f, blocks, ksz)), Name(f, path, sz, attr)) == h[f := r]
  {
    var n, k := Name(f, path, sz, attr), Count(f, blocks, ksz);
    MergeCommutes(h, n, k);
    assert Merge(Merge(h, n), k) == h[f := Merge(Merge(h, n), k)[f]];
  }

  /** `mix` is an interleaving of `names` and `counts`, each in its own order. */
  ghost predicate Interleaved(names: seq<Message>, counts: seq<Message>, mix: seq<Message>)
    decreases |mix|
  {
    if mix == [] then names == [] && counts == []
    else if mix[0].Name? then names != [] && names[0] == mix[0] && Interleaved(names[1..], counts, mix[1..])
    else counts != [] && counts[0] == mix[0] && Interleaved(names, counts[1..], mix[1..])
  }

  lemma {:induction false} CountPasses(h: Files, names: seq<Message>, k: Message)
    requires k.Count? && forall j | 0 <= j < |names| :: names[j].Name?
    ensures MergeAll(Merge(h, k), names) == Merge(MergeAll(h, names), k)
    decreases |names|
  {
    if names != [] {
      MergeCommutes(h, names[0], k);
      CountPasses(Merge(h, names[0]), names[1..], k);
    }
  }

  /** Every interleaving of the names and the counts leaves the same records behind. */
  lemma {:induction false} InterleavingIrrelevant(h: Files, names: seq<Message>, counts: seq<Message>,
                                                  mix: seq<Message>)
    requires Interleaved(names, counts, mix)
    requires forall j | 0 <= j < |names| :: names[j].Name?
    requires forall j | 0 <= j < |counts| :: counts[j].Count?
    ensures MergeAll(h, mix) == MergeAll(MergeAll(h, names), counts)
    decreases |mix|
  {
    if mix != [] {
      if mix[0].Name? {
        InterleavingIrrelevant(Merge(h, mix[0]), names[1..], counts, mix[1..]);
      } else {
        InterleavingIrrelevant(Merge(h, mix[0]), names, counts[1..], mix[1..]);
        CountPasses(h, names, counts[0]);
      }
    }
  }

  // ---- Closing ----

  datatype Confirmation = Confirmation(fino: nat, crc: nat)

  /** What the file table shows for a number: its counted blocks and folded hash. */
  datatype Stat = Stat(blockTotal: nat, crc: nat)

  /** The front of the close queue can be closed: it is in the table, its count is known and reached. */
  predicate Closable(h: Files, f: nat, stats: nat -> Option<Stat>) {
    stats(f).Some? && InfoOf(h, f).blocks >= 0 && stats(f).value.blockTotal >= InfoOf(h, f).blocks
  }

  /** How many files at the front of the queue one call of close_file closes. */
  function CloseRun(h: Files, queue: seq<nat>, stats: nat -> Option<Stat>): nat
    decreases |queue|
  {
    if queue == [] || !Closable(h, queue[0], stats) then 0
    else 1 + CloseRun(h - {queue[0]}, queue[1..], stats)
  }

  /** A closed file's record: as it was merged, with the hash read from the table. */
  function ClosedInfo(h: Files, f: nat, stats: nat -> Option<Stat>): Info {
    InfoOf(h, f).(crc := if stats(f).Some? then stats(f).value.crc else 0)
  }

  lemma {:induction false} CloseRunBound(h: Files, queue: seq<nat>, stats: nat -> Option<Stat>)
    ensures CloseRun(h, queue, stats) <= |queue|
    decreases |queue|
  {
    if queue != [] && Closable(h, queue[0], stats) {
      CloseRunBound(h - {queue[0]}, queue[1..], stats);
    }
  }

  class Receiver {
    var filesHash: Files
    var filesAdd: seq<nat>
    var filesClose: seq<nat>
    var filesComplete: seq<Info>
    var fileCountIn: nat
    var fileCountOut: nat
    var transferComplete: bool

    constructor ()
      ensures filesHash == map[] && filesAdd == [] && filesClose == [] && filesComplete == []
      ensures fileCountIn == 0 && fileCountOut == 0 && !transferComplete
    {
      filesHash, filesAdd, filesClose, filesComplete := map[], [], [], [];
      fileCountIn, fileCountOut, transferComplete := 0, 0, false;
    }

    /** add_file, as far as the queue goes: the first `n` waiting files could be opened. */
    method AddFiles(n: nat) returns (filecount: nat)
      modifies `filesAdd
      ensures filecount == if n <= |old(filesAdd)| then n else |old(filesAdd)|
      ensures filesAdd == old(filesAdd)[filecount..]
    {
      filecount := 0;
      while filecount < n && filesAdd != []
        invariant filecount <= |old(filesAdd)| && filecount <= n && filesAdd == old(filesAdd)[filecount..]
      {
        filesAdd := filesAdd[1..];
        filecount := filecount + 1;
      }
    }

    /** send_file_completions: the confirmations of up to 4096 closed files, last in first out. */
    method SendCompletions() returns (v: seq<Confirmation>)
      modifies `filesComplete
      ensures |v| == if |old(filesComplete)| <= 4096 then |old(filesComplete)| else 4096
      ensures filesComplete == old(filesComplete)[..|old(filesComplete)| - |v|]
      ensures forall j | 0 <= j < |v| ::
                v[j] == Confirmation(old(filesComplete)[|old(filesComplete)| - 1 - j].fino,
                                     old(filesComplete)[|old(filesComplete)| - 1 - j].crc)
    {
      v := [];
      while filesComplete != [] && |v| < 4096
        invariant |v| <= 4096 && |v| <= |old(filesComplete)|
        invariant filesComplete == old(filesComplete)[..|old(filesComplete)| - |v|]
        invariant forall j | 0 <= j < |v| ::
                    v[j] == Confirmation(old(filesComplete)[|old(filesComplete)| - 1 - j].fino,
                                         old(filesComplete)[|old(filesComplete)| - 1 - j].crc)
        decreases |filesComplete|
      {
        var fi := filesComplete[|filesComplete| - 1];
        filesComplete := filesComplete[..|filesComplete| - 1];
        v := v + [Confirmation(fi.fino, fi.crc)];
      }
    }

    /** One turn of the main loop: opens what can be opened, closes what is complete, and leaves
        exactly when the sender is done and as many files went out as came in. */
    method Turn(n: nat, stats: nat -> Option<Stat>) returns (leave: bool)
      modifies this
      ensures var k := if n <= |old(filesAdd)| then n else |old(filesAdd)|;
              filesAdd == old(filesAdd)[k..] && fileCountIn == old(fileCountIn) + k
      ensures var k := CloseRun(old(filesHash), old(filesClose), stats);
              && k <= |old(filesClose)|
              && filesClose == old(filesClose)[k..] && fileCountOut == old(fileCountOut) + k
              && filesHash == old(filesHash) - (set j | 0 <= j < k :: old(filesClose)[j])
              && |filesComplete| == |old(filesComplete)| + k && old(filesComplete) <= filesComplete
              && forall j | 0 <= j < k ::
                   filesComplete[|old(filesComplete)| + j] == ClosedInfo(old(filesHash), old(filesClose)[j], stats)
      ensures leave == (transferComplete && fileCountIn == fileCountOut) && transferComplete == old(transferComplete)
    {
      var filecount := AddFiles(n);
      var res := CloseFiles(stats);
      fileCountOut := fileCountOut + |res|;
      filesComplete := filesComplete + res;
      fileCountIn := fileCountIn + filecount;
      leave := transferComplete && fileCountIn == fileCountOut;
    }

    /** One file-specification message: names go to the add queue, counts to the close queue. */
    method OnFileSpec(ms: seq<Message>)
      modifies `filesHash, `filesAdd, `filesClose
      ensures filesHash == MergeAll(old(filesHash), ms)
      ensures filesAdd == old(filesAdd) + NamesIn(ms)
      ensures filesClose == old(filesClose) + CountsIn(ms)
    {
      var i := 0;
      while i < |ms|
        invariant 0 <= i <= |ms|
        invariant MergeAll(filesHash, ms[i..]) == MergeAll(old(filesHash), ms)
        invariant filesAdd + NamesIn(ms[i..]) == old(filesAdd) + NamesIn(ms)
        invariant filesClose + CountsIn(ms[i..]) == old(filesClose) + CountsIn(ms)
      {
        var m := ms[i];
        assert ms[i..][1..] == ms[i + 1..];
        match m {
          case Name(f, path, sz, attr) =>
            var fi := InfoOf(filesHash, f);
            fi := fi.(path := path);
            if fi.sz == 0 {
              fi := fi.(sz := sz);
            }
            fi := fi.(fino := f, attr := attr);
            filesHash := filesHash[f := fi];
            filesAdd := filesAdd + [f];
          case Count(f, blocks, sz) =>
            var fi := InfoOf(filesHash, f);
            fi := fi.(blocks := blocks);
            if sz > 0 {
              fi := fi.(sz := sz);
            }
            filesHash := filesHash[f := fi];
            filesClose := filesClose + [f];
        }
        i := i + 1;
      }
      assert ms[i..] == [];
    }

    /** close_file: closes from the front of the queue until a file is not ready. The closed
        files leave the map and the queue, in queue order, with the hash read from the table. */
    method CloseFiles(stats: nat -> Option<Stat>) returns (ret: seq<Info>)
      modifies `filesHash, `filesClose
      ensures |ret| == CloseRun(old(filesHash), old(filesClose), stats) <= |old(filesClose)|
      ensures filesClose == old(filesClose)[|ret|..]
      ensures filesHash == old(filesHash) - (set j | 0 <= j < |ret| :: old(filesClose)[j])
      ensures forall j | 0 <= j < |ret| :: ret[j] == ClosedInfo(old(filesHash), old(filesClose)[j], stats)
      ensures filesClose != [] ==> !Closable(filesHash, filesClose[0], stats)
    {
      ret := [];
      CloseRunBound(filesHash, filesClose, stats);
      while filesClose != [] && Closable(filesHash, filesClose[0], stats)
        invariant |ret| <= |old(filesClose)| && filesClose == old(filesClose)[|ret|..]
        invariant |ret| + CloseRun(filesHash, filesClose, stats)
                  == CloseRun(old(filesHash), old(filesClose), stats) <= |old(filesClose)|
        invariant filesHash == old(filesHash) - (set j | 0 <= j < |ret| :: old(filesClose)[j])
        invariant forall j | 0 <= j < |ret| :: ret[j] == ClosedInfo(old(filesHash), old(filesClose)[j], stats)
        decreases |filesClose|
      {
        var fino := filesClose[0];
        assert fino in filesHash;
        var fi := InfoOf(filesHash, fino).(crc := stats(fino).value.crc);
        ret := ret + [fi];
        filesHash := filesHash - {fino};
        filesClose := filesClose[1..];
      }
    }
  }

  function NamesIn(ms: seq<Message>): seq<nat> {
    if ms == [] then [] else (if ms[0].Name? then [ms[0].fino] else []) + NamesIn(ms[1..])
  }

  function CountsIn(ms: seq<Message>): seq<nat> {
    if ms == [] then [] else (if ms[0].Count? then [ms[0].fino] else []) + CountsIn(ms[1..])
  }
}
