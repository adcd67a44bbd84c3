/** The recursive heart of a sender worker: submit_work over an engine with a queue of
    operations in flight.

    Operations complete in any order. One that comes back empty makes the worker drain its whole
    queue by calling submit_work again and again from inside the call; a second empty operation
    nests once more. The class below runs that code; `events` records what it does, and every
    event must be one that the worker of the sharing protocol may take next.
 */
module SubmitWork {
  import opened Blocks
  import opened Options
  import Share = SenderShare
  import W = StateWord

  /** What a worker does, as seen from inside: the arguments are what the shared memory or the
      device answered. */
  datatype Event =
    | Claimed(i: nat)           // fetch-add on block_offset, operation queued
    | Reaped(i: nat)            // a completed operation is picked up
    | Folded | Sent | Sized | Ticked
    | Removed(last: bool)       // file_iow_remove; was the result FS_COMPLETE alone?
    | Copied(d: Share.Done)
    | Published | Wiped

  /** The worker's private state after one event; nothing if the protocol forbids it. */
  function Next(c: Config, k: Share.Worker, e: Event): Option<Share.Worker> {
    match k
    case Working(f, q, eof) =>
      if e.Claimed? && !eof && e.i !in q then Some(Share.Working(f, q + {e.i}, eof))
      else if e.Reaped? && e.i in q then
        Some(if Data(c, f, e.i) == [] then Share.Working(f, q - {e.i}, true)
             else Share.Sending(f, q - {e.i}, eof, e.i, 0))
      else if e.Removed? && eof && q == {} then Some(if e.last then Share.Leaving(f) else Share.Idle)
      else None
    case Sending(f, q, eof, i, st) =>
      if (st == 0 && e.Folded?) || (st == 1 && e.Sent?) || (st == 2 && e.Sized?)
      then Some(Share.Sending(f, q, eof, i, st + 1))
      else if st == 3 && e.Ticked? then Some(Share.Working(f, q, eof))
      else None
    case Leaving(f) => if e.Copied? then Some(Share.Publishing(f, e.d)) else None
    case Publishing(f, d) => if e.Published? then Some(Share.Wiping(f)) else None
    case Wiping(f) => if e.Wiped? then Some(Share.Idle) else None
    case Idle => None
  }

  function Action(w: nat, e: Event): Share.Action {
    match e
    case Claimed(_) => Share.Claim(w)
    case Reaped(i) => Share.Reap(w, i)
    case Folded => Share.Fold(w)
    case Sent => Share.Send(w)
    case Sized => Share.Size(w)
    case Ticked => Share.Tick(w)
    case Removed(_) => Share.Detach(w)
    case Copied(_) => Share.Copy(w)
    case Published => Share.Publish(w)
    case Wiped => Share.Wipe(w)
  }

  /** The answer in the event is the one the shared memory gives. */
  predicate Answers(s: Share.State, w: nat, e: Event)
    requires w < |s.workers| && !s.workers[w].Idle?
  {
    var r := Share.Look(s, s.workers[w].file);
    match e
    case Claimed(i) => i == r.blockOffset
    case Removed(last) => last == (W.Left(r.word, w) == W.COMPLETE)
    case Copied(d) => d == Share.Done(s.workers[w].file, r.bytesTotal, r.blockTotal, r.crc)
    case _ => true
  }

  /** Private moves are moves of the sharing protocol: the action is enabled and leaves the worker
      in the private state computed here. */
  lemma MoveIsAction(c: Config, s: Share.State, w: nat, e: Event)
    requires w < |s.workers| && !s.workers[w].Idle? && Next(c, s.workers[w], e).Some? && Answers(s, w, e)
    ensures Share.Enabled(c, s, Action(w, e))
    ensures Share.Apply(c, s, Action(w, e)).workers[w] == Next(c, s.workers[w], e).value
  {
  }

  function Run(c: Config, k: Share.Worker, es: seq<Event>): Option<Share.Worker>
    decreases |es|
  {
    if es == [] then Some(k)
    else
      var o := Run(c, k, es[..|es| - 1]);
      if o.None? then None else Next(c, o.value, es[|es| - 1])
  }

  lemma RunExtends(c: Config, k: Share.Worker, es: seq<Event>, e: Event)
    requires Run(c, k, es).Some?
    ensures Run(c, k, es + [e]) == Next(c, Run(c, k, es).value, e)
  {
    assert (es + [e])[..|es|] == es;
  }

  // ---- What a conforming sequence of events has done ----

  function ClaimedIn(es: seq<Event>): set<nat> { set e | e in es && e.Claimed? :: e.i }

  function ReapedIn(es: seq<Event>): set<nat> { set e | e in es && e.Reaped? :: e.i }

  /** The blocks counted: the ones whose Ticked follows. */
  function Counted(c: Config, k: Share.Worker, es: seq<Event>): set<nat>
    decreases |es|
  {
    if es == [] then {}
    else
      var before := Counted(c, k, es[..|es| - 1]);
      var o := Run(c, k, es[..|es| - 1]);
      if es[|es| - 1].Ticked? && o.Some? && o.value.Sending? then before + {o.value.index} else before
  }

  function Removals(es: seq<Event>): nat
    decreases |es|
  {
    if es == [] then 0 else Removals(es[..|es| - 1]) + if es[|es| - 1].Removed? then 1 else 0
  }

  function Queue(k: Share.Worker): set<nat> { if k.Working? || k.Sending? then k.queue else {} }

  predicate Busy(k: Share.Worker) { k.Working? || k.Sending? }

  function DataOf(c: Config, f: nat, q: set<nat>): set<nat> { set i | i in q && Data(c, f, i) != [] }

  /** Where the books stand after a conforming sequence of events. */
  ghost predicate Balanced(c: Config, f: nat, es: seq<Event>, k: Share.Worker) {
    var k0 := Share.Working(f, {}, false);
    && (Busy(k) ==> k.file == f)
    && ClaimedIn(es) == ReapedIn(es) + Queue(k)
    && DataOf(c, f, ReapedIn(es)) == Counted(c, k0, es) + (if k.Sending? then {k.index} else {})
    && (k.Sending? ==> Data(c, f, k.index) != [] && k.stage < 4)
    && Removals(es) == if Busy(k) then 0 else 1
  }

  lemma {:induction false} BooksBalance(c: Config, f: nat, es: seq<Event>)
    requires Run(c, Share.Working(f, {}, false), es).Some?
    ensures Balanced(c, f, es, Run(c, Share.Working(f, {}, false), es).value)
    decreases |es|
  {
    var k0 := Share.Working(f, {}, false);
    if es != [] {
      var pre, e := es[..|es| - 1], es[|es| - 1];
      BooksBalance(c, f, pre);
      BookStep(c, f, pre, e, Run(c, k0, pre).value);
      assert es == pre + [e];
    }
  }

  lemma BookStep(c: Config, f: nat, es: seq<Event>, e: Event, k: Share.Worker)
    requires Run(c, Share.Working(f, {}, false), es) == Some(k) && Balanced(c, f, es, k) && Next(c, k, e).Some?
    ensures Balanced(c, f, es + [e], Next(c, k, e).value)
  {
    OneMore(es, e);
    CountMore(c, Share.Working(f, {}, false), es, e);
    DataMore(c, f, ReapedIn(es), if e.Reaped? then {e.i} else {});
    hide ClaimedIn, ReapedIn, DataOf, Data, Counted, Removals, Run;
  }

  lemma OneMore(es: seq<Event>, e: Event)
    ensures ClaimedIn(es + [e]) == ClaimedIn(es) + if e.Claimed? then {e.i} else {}
    ensures ReapedIn(es + [e]) == ReapedIn(es) + if e.Reaped? then {e.i} else {}
  {
  }

  lemma CountMore(c: Config, k0: Share.Worker, es: seq<Event>, e: Event)
    requires Run(c, k0, es).Some?
    ensures Removals(es + [e]) == Removals(es) + if e.Removed? then 1 else 0
    ensures var k := Run(c, k0, es).value;
            Counted(c, k0, es + [e]) == Counted(c, k0, es) + if e.Ticked? && k.Sending? then {k.index} else {}
  {
    assert (es + [e])[..|es|] == es;
  }

  lemma DataMore(c: Config, f: nat, q: set<nat>, r: set<nat>)
    ensures DataOf(c, f, q + r) == DataOf(c, f, q) + DataOf(c, f, r)
    ensures forall i | r == {i} :: DataOf(c, f, r) == if Data(c, f, i) == [] then {} else {i}
    ensures r == {} ==> DataOf(c, f, r) == {}
  {
  }

  /** Once the bit is gone, it was removed exactly once, every claimed operation has been picked
      up, every block with data has been folded, sent and counted, and nothing comes after but
      what the last worker out does. */
  lemma RemovedMeansDrained(c: Config, f: nat, es: seq<Event>)
    requires Run(c, Share.Working(f, {}, false), es).Some? && Removals(es) > 0
    ensures Removals(es) == 1 && ClaimedIn(es) == ReapedIn(es)
    ensures Counted(c, Share.Working(f, {}, false), es) == DataOf(c, f, ClaimedIn(es))
    ensures forall e: Event | e.Claimed? || e.Reaped? || e.Folded? || e.Sent? || e.Sized? || e.Ticked? || e.Removed? ::
              Run(c, Share.Working(f, {}, false), es + [e]) == None
  {
    BooksBalance(c, f, es);
    forall e: Event | e.Claimed? || e.Reaped? || e.Folded? || e.Sent? || e.Sized? || e.Ticked? || e.Removed?
      ensures Run(c, Share.Working(f, {}, false), es + [e]) == None
    {
      RunExtends(c, Share.Working(f, {}, false), es, e);
    }
  }

  // ---- The worker ----

  /** One worker busy with one file. `head` and `tail` are the engine's counters, `fs` says
      whether the worker still has its slot pointer. */
  class Worker {
    const c: Config
    const file: nat
    const depth: nat
    var head: nat
    var tail: nat
    var inFlight: set<nat>
    var claimed: nat
    var fs: bool
    ghost var k: Share.Worker
    ghost var events: seq<Event>

    ghost predicate Valid()
      reads this
    {
      && Run(c, Share.Working(file, {}, false), events) == Some(k)
      && head == tail + |inFlight|
      && (forall i | i in inFlight :: i < claimed)
      && if fs then k.Working? && k == Share.Working(file, inFlight, k.eof) else k == Share.Idle && inFlight == {}
    }

    /** The worker has won or joined the file: no operation is in flight. */
    constructor (c: Config, file: nat, depth: nat)
      ensures Valid() && fs && inFlight == {} && events == [] && k == Share.Working(file, {}, false)
      ensures this.c == c && this.file == file && this.depth == depth
    {
      this.c, this.file, this.depth := c, file, depth;
      head, tail, inFlight, claimed, fs := 0, 0, {}, 0, true;
      k, events := Share.Working(file, {}, false), [];
    }

    ghost method Note(e: Event)
      requires Run(c, Share.Working(file, {}, false), events) == Some(k) && Next(c, k, e).Some?
      modifies `k, `events
      ensures events == old(events) + [e] && k == Next(c, old(k), e).value
      ensures Run(c, Share.Working(file, {}, false), events) == Some(k)
    {
      RunExtends(c, Share.Working(file, {}, false), events, e);
      k := Next(c, k, e).value;
      events := events + [e];
    }

    /** The fetch loop of tx_worker: the queue is filled with the next unclaimed blocks; `skip`
        says how many blocks other workers claim in between. */
    method FillQueue(skip: nat -> nat)
      requires Valid() && fs && !k.eof
      modifies this
      ensures Valid() && fs && !k.eof && |inFlight| >= depth && old(events) <= events && old(inFlight) <= inFlight
    {
      while head - tail < depth
        invariant Valid() && fs && !k.eof && old(events) <= events && old(inFlight) <= inFlight
        decreases depth + tail - head
      {
        head := head + 1;
        var i := claimed + skip(claimed);
        claimed := i + 1;
        Note(Claimed(i));
        inFlight := inFlight + {i};
      }
    }

    /** The engine's submit: any operation in flight may be the one that completes. */
    method Reap() returns (some: bool, i: nat)
      ensures some == (head > tail) || !Valid()
      ensures Valid() && some ==> i in inFlight
    {
      if head > tail && inFlight != {} {
        i :| i in inFlight;
        return true, i;
      }
      return false, 0;
    }

    /** The engine's complete. */
    method Retire(i: nat)
      requires i in inFlight && head == tail + |inFlight|
      modifies `tail, `inFlight
      ensures inFlight == old(inFlight) - {i} && head == tail + |inFlight|
    {
      tail := tail + 1;
      inFlight := inFlight - {i};
    }

    /** submit_work. Picks up one completed operation: -1 if there is none. A block with data is
        folded, sent and counted. An empty one drains the queue, gives up the file and forgets
        the slot pointer; `last` is what file_iow_remove will answer and `record` what the last
        worker out reads from the slot. */
    method Submit(last: bool, record: Share.Done) returns (r: int)
      requires Valid()
      modifies this
      decreases |inFlight|, 0
      ensures Valid() && old(events) <= events && inFlight <= old(inFlight)
      ensures r == if old(inFlight) == {} then -1 else 0
      ensures r == -1 ==> events == old(events) && fs == old(fs) && k == old(k)
      ensures r == 0 ==> |inFlight| < |old(inFlight)| && old(events) < events
      ensures fs ==> old(fs) && k.eof == old(k.eof)
    {
      var some, i := Reap();
      if !some {
        return -1;
      }
      if Data(c, file, i) == [] {
        Note(Reaped(i));
        Retire(i);
        Drain(last, record);
        if fs {
          GiveUp(last, record);
        }
        return 0;
      }
      SendBlock(i);
      return 0;
    }

    /** `while (submit_work(...) == 0);` */
    method Drain(last: bool, record: Share.Done)
      requires Valid()
      modifies this
      decreases |inFlight|, 1
      ensures Valid() && inFlight == {} && old(events) <= events
      ensures fs ==> old(fs) && k.eof == old(k.eof)
    {
      var n := |inFlight|;
      var again := Submit(last, record);
      while again == 0
        invariant Valid() && old(events) <= events && |inFlight| <= n
        invariant again == 0 || (again == -1 && inFlight == {})
        invariant again == 0 ==> |inFlight| < n
        invariant fs ==> old(fs) && k.eof == old(k.eof)
        decreases |inFlight|, again
      {
        again := Submit(last, record);
      }
    }

    method SendBlock(i: nat)
      requires Valid() && i in inFlight && Data(c, file, i) != []
      modifies this
      ensures Valid() && old(events) < events && inFlight == old(inFlight) - {i}
      ensures fs && old(fs) && k.eof == old(k.eof)
    {
      Note(Reaped(i));
      Note(Folded);
      Note(Sent);
      Note(Sized);
      Note(Ticked);
      Retire(i);
    }

    /** The end of the empty branch: the bit is removed; the last worker out publishes the totals
        and wipes the slot. */
    method GiveUp(last: bool, record: Share.Done)
      requires Valid() && fs && k.eof && inFlight == {}
      modifies this
      ensures Valid() && !fs && inFlight == {}
      ensures events == old(events) + [Removed(last)] + if last then [Copied(record), Published, Wiped] else []
    {
      Note(Removed(last));
      if last {
        Note(Copied(record));
        Note(Published);
        Note(Wiped);
      }
      fs := false;
    }

    /** One round of tx_worker on a file: fill the queue, then submit. With a queue of at least
        one operation the round always makes progress. */
    method Round(skip: nat -> nat, last: bool, record: Share.Done)
      requires Valid() && fs && !k.eof && depth > 0
      modifies this
      ensures Valid() && old(events) < events && (fs ==> !k.eof)
    {
      FillQueue(skip);
      var r := Submit(last, record);
      assert r == 0;
    }

    /** When the slot pointer is gone the worker's bit has been removed, exactly once, after every
        block it claimed was picked up and every one with data was sent and counted. */
    lemma PointerGoneMeansDrained()
      requires Valid() && !fs
      ensures Removals(events) == 1 && ClaimedIn(events) == ReapedIn(events)
      ensures Counted(c, Share.Working(file, {}, false), events) == DataOf(c, file, ClaimedIn(events))
    {
      BooksBalance(c, file, events);
      RemovedMeansDrained(c, file, events);
    }
  }
}
