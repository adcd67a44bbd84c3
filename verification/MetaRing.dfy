/** The metadata ring: one producer (the network thread), one consumer (the control loop).

    Messages of any size up to 2 MiB lie contiguously in a 4 MiB buffer of 65536 slots of 64
    bytes. A message that would reach the end of the buffer is preceded by a wrap marker and
    starts over at slot 0. `head` and `tail` count slots and never wrap; each side loads the
    other's counter at one moment and acts on it later. Every step below is one atomic load or
    store, or a write of plain bytes that the other side is meant never to see.

    `queue`, `sent` and `taken` are history.
 */
module MetaRing {
  import opened Blocks

  const MARK: seq<Byte> := [255, 255, 255, 255]

  /** The payload size in the first four header bytes, in network order. */
  function Size(hdr: seq<Byte>): (r: nat)
    requires |hdr| >= 4
    ensures r < 2097152 ==> hdr[..4] != MARK
  {
    var n := hdr[0] as int * 16777216 + hdr[1] as int * 65536 + hdr[2] as int * 256 + hdr[3] as int;
    assert hdr[..4][0] == hdr[0];
    n
  }

  /** Slots taken by a header and `sz` bytes of payload. */
  function Slots(sz: nat): nat { (sz + 16 + 63) / 64 }

  /** Where a message of `n` slots starts when the head is `p`: here, or at the next lap. */
  function Place(p: nat, n: nat): nat {
    if p % 65536 + n >= 65536 then p + 65536 - p % 65536 else p
  }

  /** The producer's wait condition with the tail it last loaded. */
  predicate Waits(head: nat, tail: nat, n: nat) {
    || tail + 65536 <= head
    || (head % 65536 < tail % 65536 && head % 65536 + n >= tail % 65536)
  }

  datatype Producer =
    | Ready
    | Loaded(hdr: seq<Byte>, tail: nat)              // header read, counters loaded
    | Placed(hdr: seq<Byte>, at: nat, tail: nat)     // marker written if needed
    | Filling(hdr: seq<Byte>, at: nat)               // guard passed, header copied
    | Filled(hdr: seq<Byte>, at: nat, payload: seq<Byte>)
    | Halted                                         // size check failed: the process exits

  datatype Consumer =
    | Free
    | Polled                            // saw the head past the tail
    | Skipping(to: nat)                 // found a marker
    | Holding(slot: nat)                // a message pointer is out
    | Measured(slot: nat, n: nat)       // meta_complete has read the size

  datatype Ring = Ring(buf: seq<Byte>, head: nat, tail: nat, prod: Producer, cons: Consumer,
                       queue: seq<seq<Byte>>, sent: seq<seq<Byte>>, taken: seq<seq<Byte>>)

  datatype Step =
    | Arrive(hdr: seq<Byte>)         // 16 header bytes read, both counters loaded
    | Mark                           // wrap marker, written before any wait
    | Reload                         // the tail is loaded again
    | Copy                           // the guard holds: header copied in
    | Scribble(junk: seq<Byte>)      // encrypted bytes arrive in place
    | Fill(payload: seq<Byte>)       // decrypted in place
    | Publish                        // the head is stored
    | Poll                           // meta_recv: counters loaded and compared
    | Peek                           // meta_recv: first word read
    | Skip                           // meta_recv: the tail is stored past the marker
    | Measure                        // meta_complete: size read
    | Retire                         // meta_complete: the tail is stored

  function Write(buf: seq<Byte>, a: nat, d: seq<Byte>): (r: seq<Byte>)
    requires a + |d| <= |buf|
    ensures |r| == |buf|
  {
    buf[..a] + d + buf[a + |d|..]
  }

  predicate HoldsAt(buf: seq<Byte>, a: nat, d: seq<Byte>) {
    a + |d| <= |buf| && buf[a..a + |d|] == d
  }

  function Start(buf: seq<Byte>): Ring {
    Ring(buf, 0, 0, Ready, Free, [], [], [])
  }

  predicate Can(s: Ring, a: Step) {
    match a
    case Arrive(hdr) => s.prod.Ready? && |hdr| == 16
    case Mark => s.prod.Loaded?
    case Reload => s.prod.Placed?
    case Copy => s.prod.Placed? && |s.prod.hdr| == 16 && !Waits(s.prod.at, s.prod.tail, Slots(Size(s.prod.hdr)))
    case Scribble(junk) => s.prod.Filling? && |s.prod.hdr| == 16 && |junk| <= Size(s.prod.hdr)
    case Fill(payload) => s.prod.Filling? && |s.prod.hdr| == 16 && |payload| == Size(s.prod.hdr)
    case Publish => s.prod.Filled?
    case Poll => s.cons.Free? && s.tail < s.head
    case Peek => s.cons.Polled?
    case Skip => s.cons.Skipping?
    case Measure => s.cons.Holding?
    case Retire => s.cons.Measured?
  }

  /** A write that stays inside the buffer; one that would not is a fault that leaves it empty. */
  function Put(buf: seq<Byte>, a: nat, d: seq<Byte>): seq<Byte> {
    if a + |d| <= |buf| then Write(buf, a, d) else []
  }

  function DoArrive(s: Ring, hdr: seq<Byte>): Ring
    requires |hdr| == 16
  {
    s.(prod := if Size(hdr) < 2097152 then Loaded(hdr, s.tail) else Halted)
  }

  function DoMark(s: Ring): Ring
    requires s.prod.Loaded?
  {
    var n := if |s.prod.hdr| == 16 then Slots(Size(s.prod.hdr)) else 0;
    if s.head % 65536 + n >= 65536 then
      s.(buf := Put(s.buf, s.head % 65536 * 64, MARK),
         prod := Placed(s.prod.hdr, s.head + 65536 - s.head % 65536, s.prod.tail))
    else s.(prod := Placed(s.prod.hdr, s.head, s.prod.tail))
  }

  function DoCopy(s: Ring): Ring
    requires s.prod.Placed?
  {
    s.(buf := Put(s.buf, s.prod.at % 65536 * 64, s.prod.hdr), prod := Filling(s.prod.hdr, s.prod.at))
  }

  function DoScribble(s: Ring, junk: seq<Byte>): Ring
    requires s.prod.Filling?
  {
    s.(buf := Put(s.buf, s.prod.at % 65536 * 64 + 16, junk))
  }

  function DoFill(s: Ring, payload: seq<Byte>): Ring
    requires s.prod.Filling?
  {
    s.(buf := Put(s.buf, s.prod.at % 65536 * 64 + 16, payload), prod := Filled(s.prod.hdr, s.prod.at, payload))
  }

  function DoPublish(s: Ring): Ring
    requires s.prod.Filled?
  {
    var m := s.prod.hdr + s.prod.payload;
    s.(head := s.prod.at + Slots(|s.prod.payload|), prod := Ready, queue := s.queue + [m], sent := s.sent + [m])
  }

  /** The four bytes at a slot; a read outside the buffer is a fault that yields nothing. */
  function WordAt(buf: seq<Byte>, slot: nat): seq<Byte> {
    if slot * 64 + 4 <= |buf| then buf[slot * 64..slot * 64 + 4] else []
  }

  function DoPeek(s: Ring): Ring {
    var t := s.tail % 65536;
    s.(cons := if WordAt(s.buf, t) == MARK then Skipping(s.tail + 65536 - t) else Holding(t))
  }

  function DoSkip(s: Ring): Ring
    requires s.cons.Skipping?
  {
    s.(tail := s.cons.to, cons := Holding(0))
  }

  /** The message behind a pointer: header and as many bytes as the header says. */
  function View(buf: seq<Byte>, slot: nat): seq<Byte> {
    var w := WordAt(buf, slot);
    if |w| == 4 && slot * 64 + 16 + Size(w) <= |buf| then buf[slot * 64..slot * 64 + 16 + Size(w)] else []
  }

  function DoMeasure(s: Ring): Ring
    requires s.cons.Holding?
  {
    var w := WordAt(s.buf, s.tail % 65536);
    s.(cons := Measured(s.cons.slot, if |w| == 4 then Slots(Size(w)) else 0))
  }

  function DoRetire(s: Ring): Ring
    requires s.cons.Measured?
  {
    s.(tail := s.tail + s.cons.n, cons := Free, taken := s.taken + [View(s.buf, s.cons.slot)],
       queue := if s.queue == [] then [] else s.queue[1..])
  }

  function Do(s: Ring, a: Step): Ring
    requires Can(s, a)
  {
    match a
    case Arrive(hdr) => DoArrive(s, hdr)
    case Mark => DoMark(s)
    case Reload => s.(prod := Placed(s.prod.hdr, s.prod.at, s.tail))
    case Copy => DoCopy(s)
    case Scribble(junk) => DoScribble(s, junk)
    case Fill(payload) => DoFill(s, payload)
    case Publish => DoPublish(s)
    case Poll => s.(cons := Polled)
    case Peek => DoPeek(s)
    case Skip => DoSkip(s)
    case Measure => DoMeasure(s)
    case Retire => DoRetire(s)
  }

  // ---- Layout ----

  predicate MessageOk(m: seq<Byte>) {
    |m| >= 16 && |m| == 16 + Size(m) && Size(m) < 2097152
  }

  function Width(m: seq<Byte>): (n: nat)
    requires MessageOk(m)
    ensures 1 <= n <= 32769 && |m| <= n * 64
  {
    Slots(Size(m))
  }

  /** Messages `q` lie in the buffer from absolute slot `p` on, each where the producer puts it. */
  ghost predicate Layout(buf: seq<Byte>, q: seq<seq<Byte>>, p: nat)
    decreases |q|
  {
    q == [] || (
      && MessageOk(q[0])
      && var st := Place(p, Width(q[0]));
         && HoldsAt(buf, st % 65536 * 64, q[0])
         && (st != p ==> HoldsAt(buf, p % 65536 * 64, MARK))
         && Layout(buf, q[1..], st + Width(q[0])))
  }

  /** The absolute slot after the last of the messages `q`, laid out from `p` on. */
  ghost function End(q: seq<seq<Byte>>, p: nat): (r: nat)
    ensures r >= p
    ensures q != [] && MessageOk(q[0]) ==> r > p
    decreases |q|
  {
    if q == [] || !MessageOk(q[0]) then p else End(q[1..], Place(p, Width(q[0])) + Width(q[0]))
  }

  /** Where the producer's message starts, and room for it, once the guard was passed. */
  ghost predicate RoomOk(s: Ring, hdr: seq<Byte>, at: nat) {
    && |hdr| == 16 && Size(hdr) < 2097152
    && at == Place(s.head, Slots(Size(hdr)))
    && at + Slots(Size(hdr)) < s.tail + 65536
    && (at != s.head ==> HoldsAt(s.buf, s.head % 65536 * 64, MARK))
  }

  ghost predicate ProducerOk(s: Ring) {
    match s.prod
    case Ready => true
    case Halted => true
    case Loaded(hdr, tail) => |hdr| == 16 && Size(hdr) < 2097152 && tail <= s.tail
    case Placed(hdr, at, tail) =>
      && |hdr| == 16 && Size(hdr) < 2097152 && tail <= s.tail
      && at == Place(s.head, Slots(Size(hdr)))
      && (at != s.head ==> HoldsAt(s.buf, s.head % 65536 * 64, MARK))
    case Filling(hdr, at) => RoomOk(s, hdr, at) && HoldsAt(s.buf, at % 65536 * 64, hdr)
    case Filled(hdr, at, payload) =>
      RoomOk(s, hdr, at) && |payload| == Size(hdr) && HoldsAt(s.buf, at % 65536 * 64, hdr + payload)
  }

  ghost predicate ConsumerOk(s: Ring) {
    match s.cons
    case Free => true
    case Polled => s.queue != []
    case Skipping(to) =>
      s.queue != [] && MessageOk(s.queue[0]) && to == Place(s.tail, Width(s.queue[0])) && to % 65536 == 0
    case Holding(t) => AtMessage(s, t)
    case Measured(t, n) => AtMessage(s, t) && n == Width(s.queue[0])
  }

  ghost predicate AtMessage(s: Ring, t: nat) {
    && s.queue != [] && MessageOk(s.queue[0])
    && t == s.tail % 65536 && Place(s.tail, Width(s.queue[0])) == s.tail
  }

  ghost predicate QueueOk(s: Ring) {
    && |s.buf| == 4194304
    && Layout(s.buf, s.queue, s.tail)
    && End(s.queue, s.tail) == s.head
    && s.head < s.tail + 65536
    && s.taken + s.queue == s.sent
  }

  ghost predicate Inv(s: Ring) {
    QueueOk(s) && ProducerOk(s) && ConsumerOk(s)
  }

  // ---- Writes and the layout ----

  lemma WriteSame(buf: seq<Byte>, a: nat, d: seq<Byte>)
    requires a + |d| <= |buf|
    ensures HoldsAt(Write(buf, a, d), a, d)
  {
  }

  lemma WriteOther(buf: seq<Byte>, a: nat, d: seq<Byte>, b: nat, e: seq<Byte>)
    requires a + |d| <= |buf| && HoldsAt(buf, b, e) && (b + |e| <= a || a + |d| <= b)
    ensures HoldsAt(Write(buf, a, d), b, e)
  {
    var w := Write(buf, a, d);
    forall i | 0 <= i < |e|
      ensures w[b + i] == e[i]
    {
      assert buf[b..b + |e|][i] == buf[b + i];
    }
  }

  /** Slots that lie apart on the unwrapped line, less than a lap away, lie apart in the buffer. */
  lemma Apart(p: nat, i: nat, a: nat, k: nat)
    requires p + i <= a && a + k <= p + 65536
    requires p % 65536 + i <= 65536 && a % 65536 + k <= 65536
    ensures p % 65536 + i <= a % 65536 || a % 65536 + k <= p % 65536
  {
  }

  lemma PlaceFits(p: nat, n: nat)
    requires n < 65536
    ensures p <= Place(p, n) && Place(p, n) % 65536 + n <= 65536
  {
  }

  lemma MessageKept(buf: seq<Byte>, p: nat, n: nat, m: seq<Byte>, a: nat, k: nat, off: nat, d: seq<Byte>)
    requires |buf| == 4194304 && HoldsAt(buf, p % 65536 * 64, m) && |m| <= n * 64
    requires p + n <= a && a + k <= p + 65536
    requires p % 65536 + n <= 65536 && a % 65536 + k <= 65536 && off + |d| <= k * 64
    ensures HoldsAt(Write(buf, a % 65536 * 64 + off, d), p % 65536 * 64, m)
  {
    Apart(p, n, a, k);
    WriteOther(buf, a % 65536 * 64 + off, d, p % 65536 * 64, m);
  }

  /** Writing beyond the published head, within a lap of the tail, disturbs no live message. */
  lemma {:induction false} WriteKeepsLayout(buf: seq<Byte>, q: seq<seq<Byte>>, p: nat, a: nat, k: nat, off: nat,
                                            d: seq<Byte>)
    requires |buf| == 4194304 && Layout(buf, q, p)
    requires End(q, p) <= a && a + k <= p + 65536 && a % 65536 + k <= 65536 && off + |d| <= k * 64
    ensures Layout(Write(buf, a % 65536 * 64 + off, d), q, p)
    decreases |q|
  {
    hide HoldsAt, Size, Write, Place;
    if q != [] {
      var n := Width(q[0]);
      var st := Place(p, n);
      PlaceFits(p, n);
      EndGrows(q[1..], st + n);
      MessageKept(buf, st, n, q[0], a, k, off, d);
      if st != p {
        MessageKept(buf, p, 1, MARK, a, k, off, d);
      }
      WriteKeepsLayout(buf, q[1..], st + n, a, k, off, d);
    }
  }

  lemma EndGrows(q: seq<seq<Byte>>, p: nat)
    ensures End(q, p) >= p
  {
  }

  /** A message placed at the end joins the layout. */
  lemma {:induction false} LayoutAppend(buf: seq<Byte>, q: seq<seq<Byte>>, p: nat, m: seq<Byte>)
    requires Layout(buf, q, p) && MessageOk(m)
    requires HoldsAt(buf, Place(End(q, p), Width(m)) % 65536 * 64, m)
    requires Place(End(q, p), Width(m)) != End(q, p) ==> HoldsAt(buf, End(q, p) % 65536 * 64, MARK)
    ensures Layout(buf, q + [m], p)
    ensures End(q + [m], p) == Place(End(q, p), Width(m)) + Width(m)
    decreases |q|
  {
    hide HoldsAt, Place, Slots;
    if q == [] {
      assert (q + [m])[1..] == [];
    } else {
      LayoutAppend(buf, q[1..], Place(p, Width(q[0])) + Width(q[0]), m);
      assert (q + [m])[1..] == q[1..] + [m];
    }
  }

  // ---- Every step keeps the invariant ----

  /** Passing the guard, even with an old tail, means the message fits strictly within a lap. */
  lemma GuardGivesRoom(head: nat, seen: nat, tail: nat, n: nat)
    requires seen <= tail <= head && n <= 32769 && !Waits(Place(head, n), seen, n)
    ensures Place(head, n) + n < tail + 65536
  {
  }

  /** The wait condition is exact for the tail it is tested with: it holds if and only if the message
      would come within the lap that starts at that tail. */
  lemma WaitsIff(head: nat, tail: nat, n: nat)
    requires tail <= head && n < 65536
    ensures Waits(Place(head, n), tail, n) <==> Place(head, n) + n >= tail + 65536
  {
  }

  /** Slots are counted without waste: the last one holds at least one byte. */
  lemma SlotsIsCeiling(sz: nat)
    ensures 64 * (Slots(sz) - 1) < 16 + sz <= 64 * Slots(sz)
  {
  }

  lemma MarkKeeps(s: Ring)
    requires Inv(s) && s.prod.Loaded?
    ensures Inv(DoMark(s))
  {
    hide Layout, End, Size;
    if s.head % 65536 + Slots(Size(s.prod.hdr)) >= 65536 {
      WriteKeepsLayout(s.buf, s.queue, s.tail, s.head, 1, 0, MARK);
      WriteSame(s.buf, s.head % 65536 * 64, MARK);
    }
  }

  lemma MarkerIsApart(head: nat, at: nat, n: nat)
    requires n < 65536 && at == Place(head, n) != head && at + n < head + 65536
    ensures head % 65536 * 64 + 4 <= at % 65536 * 64 || at % 65536 * 64 + n * 64 <= head % 65536 * 64
  {
    Apart(head, 1, at, n);
  }

  /** The producer's own writes at its place leave the published part and the marker alone. */
  lemma PlaceIsPrivate(s: Ring, hdr: seq<Byte>, at: nat, off: nat, d: seq<Byte>)
    requires QueueOk(s) && RoomOk(s, hdr, at) && off + |d| <= 16 + Size(hdr)
    ensures at % 65536 * 64 + off + |d| <= |s.buf|
    ensures var w := Write(s.buf, at % 65536 * 64 + off, d);
            QueueOk(s.(buf := w)) && RoomOk(s.(buf := w), hdr, at) && HoldsAt(w, at % 65536 * 64 + off, d)
  {
    hide Layout, HoldsAt;
    var n := Slots(Size(hdr));
    assert at % 65536 + n < 65536;
    WriteKeepsLayout(s.buf, s.queue, s.tail, at, n, off, d);
    WriteSame(s.buf, at % 65536 * 64 + off, d);
    if at != s.head {
      MarkerIsApart(s.head, at, n);
      WriteOther(s.buf, at % 65536 * 64 + off, d, s.head % 65536 * 64, MARK);
    }
  }

  lemma CopyKeeps(s: Ring)
    requires Inv(s) && Can(s, Copy)
    ensures Inv(DoCopy(s))
  {
    hide Layout, HoldsAt;
    GuardGivesRoom(s.head, s.prod.tail, s.tail, Slots(Size(s.prod.hdr)));
    PlaceIsPrivate(s, s.prod.hdr, s.prod.at, 0, s.prod.hdr);
  }

  lemma ScribbleKeeps(s: Ring, junk: seq<Byte>)
    requires Inv(s) && Can(s, Scribble(junk))
    ensures Inv(DoScribble(s, junk))
  {
    hide Layout, HoldsAt, Place;
    var a := s.prod.at % 65536 * 64;
    PlaceIsPrivate(s, s.prod.hdr, s.prod.at, 16, junk);
    WriteOther(s.buf, a + 16, junk, a, s.prod.hdr);
  }

  lemma Adjoin(buf: seq<Byte>, a: nat, d: seq<Byte>, e: seq<Byte>)
    requires HoldsAt(buf, a, d) && HoldsAt(buf, a + |d|, e)
    ensures HoldsAt(buf, a, d + e)
  {
    assert buf[a..a + |d| + |e|] == buf[a..a + |d|] + buf[a + |d|..a + |d| + |e|];
  }

  lemma FillKeeps(s: Ring, payload: seq<Byte>)
    requires Inv(s) && Can(s, Fill(payload))
    ensures Inv(DoFill(s, payload))
  {
    hide Layout, HoldsAt, Place;
    var a := s.prod.at % 65536 * 64;
    PlaceIsPrivate(s, s.prod.hdr, s.prod.at, 16, payload);
    WriteOther(s.buf, a + 16, payload, a, s.prod.hdr);
    Adjoin(DoFill(s, payload).buf, a, s.prod.hdr, payload);
  }

  lemma PublishKeeps(s: Ring)
    requires Inv(s) && s.prod.Filled?
    ensures Inv(DoPublish(s))
  {
    hide HoldsAt, Place;
    var m := s.prod.hdr + s.prod.payload;
    assert Size(m) == Size(s.prod.hdr);
    LayoutAppend(s.buf, s.queue, s.tail, m);
  }

  lemma PollKeeps(s: Ring)
    requires Inv(s) && Can(s, Poll)
    ensures Inv(s.(cons := Polled))
  {
  }

  /** What a message in place looks like to a reader. */
  lemma Seen(buf: seq<Byte>, slot: nat, m: seq<Byte>)
    requires MessageOk(m) && HoldsAt(buf, slot * 64, m)
    ensures |WordAt(buf, slot)| == 4 && Size(WordAt(buf, slot)) == Size(m)
    ensures WordAt(buf, slot) != MARK && View(buf, slot) == m
  {
    var w := WordAt(buf, slot);
    assert forall i | 0 <= i < 4 :: w[i] == buf[slot * 64..slot * 64 + |m|][i] == m[i];
    assert w[..4] == w;
  }

  lemma PeekKeeps(s: Ring)
    requires Inv(s) && s.cons.Polled?
    ensures Inv(DoPeek(s))
  {
    hide Layout, HoldsAt, MessageOk, Place;
    FirstMessage(s);
    if Place(s.tail, Width(s.queue[0])) == s.tail {
      Seen(s.buf, s.tail % 65536, s.queue[0]);
    } else {
      MarkSeen(s.buf, s.tail % 65536);
    }
  }

  /** The first message of the queue is at the tail, or else a marker is there and the message
      starts the next lap. */
  lemma FirstMessage(s: Ring)
    requires QueueOk(s) && s.queue != []
    ensures MessageOk(s.queue[0])
    ensures var st := Place(s.tail, Width(s.queue[0]));
            if st == s.tail then HoldsAt(s.buf, s.tail % 65536 * 64, s.queue[0])
            else HoldsAt(s.buf, s.tail % 65536 * 64, MARK) && st == s.tail + 65536 - s.tail % 65536 && st % 65536 == 0
  {
    hide HoldsAt;
  }

  lemma MarkSeen(buf: seq<Byte>, slot: nat)
    requires HoldsAt(buf, slot * 64, MARK)
    ensures WordAt(buf, slot) == MARK
  {
  }

  lemma SkipKeeps(s: Ring)
    requires Inv(s) && s.cons.Skipping?
    ensures Inv(DoSkip(s))
  {
    hide HoldsAt;
  }

  lemma MeasureKeeps(s: Ring)
    requires Inv(s) && s.cons.Holding?
    ensures Inv(DoMeasure(s))
  {
    Seen(s.buf, s.tail % 65536, s.queue[0]);
  }

  lemma RetireKeeps(s: Ring)
    requires Inv(s) && s.cons.Measured?
    ensures Inv(DoRetire(s))
  {
    Seen(s.buf, s.tail % 65536, s.queue[0]);
    assert s.taken + [s.queue[0]] + s.queue[1..] == s.taken + s.queue;
  }

  lemma StepKeeps(s: Ring, a: Step)
    requires Inv(s) && Can(s, a)
    ensures Inv(Do(s, a))
  {
    match a
    case Arrive(hdr) =>
    case Mark => MarkKeeps(s);
    case Reload =>
    case Copy => CopyKeeps(s);
    case Scribble(junk) => ScribbleKeeps(s, junk);
    case Fill(payload) => FillKeeps(s, payload);
    case Publish => PublishKeeps(s);
    case Poll => PollKeeps(s);
    case Peek => PeekKeeps(s);
    case Skip => SkipKeeps(s);
    case Measure => MeasureKeeps(s);
    case Retire => RetireKeeps(s);
  }

  // ---- Runs ----

  predicate Legal(s: Ring, run: seq<Step>)
    decreases |run|, 0
  {
    run == [] || (Legal(s, run[..|run| - 1]) && Can(Exec(s, run[..|run| - 1]), run[|run| - 1]))
  }

  function Exec(s: Ring, run: seq<Step>): Ring
    requires Legal(s, run)
    decreases |run|, 1
  {
    if run == [] then s else Do(Exec(s, run[..|run| - 1]), run[|run| - 1])
  }

  lemma {:induction false} RunKeeps(buf: seq<Byte>, run: seq<Step>)
    requires |buf| == 4194304 && Legal(Start(buf), run)
    ensures Inv(Exec(Start(buf), run))
    decreases |run|
  {
    if run != [] {
      RunKeeps(buf, run[..|run| - 1]);
      StepKeeps(Exec(Start(buf), run[..|run| - 1]), run[|run| - 1]);
    }
  }

  /** The ring is a FIFO queue: in every interleaving what the consumer has read, message by
      message, is a prefix of what was published, the rest is still in order in the buffer, the
      published distance stays below a lap, and a message pointer always shows the next message
      in full, for as long as it is held. */
  lemma RingIsFifo(buf: seq<Byte>, run: seq<Step>)
    requires |buf| == 4194304 && Legal(Start(buf), run)
    ensures var s := Exec(Start(buf), run);
            && s.taken + s.queue == s.sent
            && s.tail <= s.head < s.tail + 65536
            && (s.cons.Holding? || s.cons.Measured? ==>
                  |s.taken| < |s.sent| && View(s.buf, s.cons.slot) == s.sent[|s.taken|])
  {
    RunKeeps(buf, run);
    var s := Exec(Start(buf), run);
    if s.cons.Holding? || s.cons.Measured? {
      Seen(s.buf, s.tail % 65536, s.queue[0]);
      assert s.sent[|s.taken|] == s.queue[0];
    }
  }

  // ---- Progress ----

  /** With everything consumed, the producer is stuck for ever exactly when the message would
      reach the end of the buffer and also reach, from slot 0, the place where it stands. */
  lemma StuckIff(head: nat, n: nat)
    requires n < 65536
    ensures Waits(Place(head, n), head, n) <==> head % 65536 + n >= 65536 && head % 65536 <= n
  {
  }

  /** The tight bound: a drained ring takes a message of `n` slots at every position of the head
      if and only if `n` is at most 32767. */
  lemma DrainedProgressIff(n: nat)
    requires n < 65536
    ensures (forall head: nat :: !Waits(Place(head, n), head, n)) <==> n <= 32767
  {
    if n <= 32767 {
      forall head: nat
        ensures !Waits(Place(head, n), head, n)
      {
        StuckIff(head, n);
      }
    } else {
      StuckIff(n, n);
      assert Waits(Place(n, n), n, n);
    }
  }

  /** What meta_send may send, 1 MiB, always gets through a drained ring. */
  lemma SentSizesProgress(head: nat, sz: nat)
    requires sz <= 1048576
    ensures !Waits(Place(head, Slots(sz)), head, Slots(sz))
  {
    DrainedProgressIff(Slots(sz));
  }

  lemma Extend(s: Ring, run: seq<Step>, a: Step)
    requires Legal(s, run) && Can(Exec(s, run), a)
    ensures Legal(s, run + [a]) && Exec(s, run + [a]) == Do(Exec(s, run), a)
  {
    assert (run + [a])[..|run|] == run;
  }

  function ConsumerRank(x: Consumer): nat {
    match x
    case Free => 4
    case Polled => 3
    case Skipping(_) => 2
    case Holding(_) => 1
    case Measured(_, _) => 0
  }

  /** What the consumer does next. */
  function Consume(x: Consumer): Step {
    match x
    case Free => Poll
    case Polled => Peek
    case Skipping(_) => Skip
    case Holding(_) => Measure
    case Measured(_, _) => Retire
  }

  /** While messages are queued the consumer can go on, and comes closer to the end of the first. */
  lemma ConsumerMoves(s: Ring)
    requires Inv(s) && s.queue != []
    ensures Can(s, Consume(s.cons))
    ensures var t := Do(s, Consume(s.cons));
            && t.prod == s.prod && t.sent == s.sent && t.head == s.head
            && (|t.queue| < |s.queue| || (t.queue == s.queue && ConsumerRank(t.cons) < ConsumerRank(s.cons)))
  {
    hide Size, Place, View, WordAt, HoldsAt;
  }

  /** From every reachable state the consumer alone can take everything that was sent. */
  lemma {:induction false} RingDrains(buf: seq<Byte>, run: seq<Step>) returns (r: seq<Step>)
    requires |buf| == 4194304 && Legal(Start(buf), run)
    ensures run <= r && Legal(Start(buf), r)
    ensures var s, t := Exec(Start(buf), run), Exec(Start(buf), r);
            t.taken == t.sent == s.sent && t.prod == s.prod && t.head == s.head == t.tail
    decreases |Exec(Start(buf), run).queue|, ConsumerRank(Exec(Start(buf), run).cons)
  {
    var s := Exec(Start(buf), run);
    RunKeeps(buf, run);
    if s.queue == [] {
      r := run;
    } else {
      ConsumerMoves(s);
      Extend(Start(buf), run, Consume(s.cons));
      hide Inv, Can, Do, Consume, ConsumerRank;
      r := RingDrains(buf, run + [Consume(s.cons)]);
    }
  }

  /** A message of up to 32767 slots never waits for ever: from every reachable state there is a
      continuation in which the waiting producer goes on. */
  lemma ProducerGetsThrough(buf: seq<Byte>, run: seq<Step>) returns (r: seq<Step>)
    requires |buf| == 4194304 && Legal(Start(buf), run)
    requires var x := Exec(Start(buf), run).prod; x.Placed? && |x.hdr| == 16 && Slots(Size(x.hdr)) <= 32767
    ensures run <= r && Legal(Start(buf), r) && Can(Exec(Start(buf), r), Copy)
    ensures Exec(Start(buf), r).prod.hdr == Exec(Start(buf), run).prod.hdr
  {
    r := RingDrains(buf, run);
    var s := Exec(Start(buf), r);
    RunKeeps(buf, r);
    var n := Slots(Size(s.prod.hdr));
    assert s.prod.at == Place(s.head, n);
    DrainedProgressIff(n);
    Extend(Start(buf), r, Reload);
    r := r + [Reload];
  }

  /** From the state `s` nothing but reloading the same tail can ever happen again. */
  ghost predicate Deadlocked(s: Ring) {
    s.tail == s.head && forall a: Step | Can(s, a) :: a == Reload && Do(s, a) == s
  }

  /** The size check allows more than the bound: two messages of 2097136 bytes, the first one
      consumed, leave the ring empty and the producer waiting for ever. */
  lemma TwoLargeMessagesDeadlock(buf: seq<Byte>) returns (run: seq<Step>)
    requires |buf| == 4194304
    ensures Legal(Start(buf), run) && Deadlocked(Exec(Start(buf), run))
    ensures |Exec(Start(buf), run).sent| == 1
  {
    var hdr: seq<Byte> := [0, 31, 255, 240, 0, 0, 0, 0, 0, 0, 0, 0, 0, 0, 0, 0];
    var payload: seq<Byte> := seq(2097136, _ => 0);
    run := FirstOfTwo(buf, hdr, payload);
    Extend(Start(buf), run, Arrive(hdr));
    run := run + [Arrive(hdr)];
    Extend(Start(buf), run, Mark);
    run := run + [Mark];
  }

  /** One message of 32768 slots goes through an empty ring. */
  lemma FirstOfTwo(buf: seq<Byte>, hdr: seq<Byte>, payload: seq<Byte>) returns (run: seq<Step>)
    requires |buf| == 4194304 && |hdr| == 16 && Size(hdr) == |payload| == 2097136
    ensures Legal(Start(buf), run)
    ensures var s := Exec(Start(buf), run);
            s.head == s.tail == 32768 && s.prod == Ready && s.cons == Free && |s.buf| == 4194304 && |s.sent| == 1
  {
    run := Published(buf, hdr, payload);
    Extend(Start(buf), run, Poll);
    run := run + [Poll];
    RunKeeps(buf, run);
    var s := Exec(Start(buf), run);
    assert s.queue == s.sent == [hdr + payload] && s.tail == 0;
    Seen(s.buf, 0, s.queue[0]);
    Extend(Start(buf), run, Peek);
    run := run + [Peek];
    Extend(Start(buf), run, Measure);
    run := run + [Measure];
    Extend(Start(buf), run, Retire);
    run := run + [Retire];
  }

  lemma Published(buf: seq<Byte>, hdr: seq<Byte>, payload: seq<Byte>) returns (run: seq<Step>)
    requires |buf| == 4194304 && |hdr| == 16 && Size(hdr) == |payload| == 2097136
    ensures Legal(Start(buf), run)
    ensures var s := Exec(Start(buf), run);
            && s.head == 32768 && s.tail == 0 && s.prod == Ready && s.cons == Free && |s.buf| == 4194304
            && s.sent == [hdr + payload] && s.taken == []
  {
    run := [];
    Extend(Start(buf), run, Arrive(hdr));
    run := run + [Arrive(hdr)];
    Extend(Start(buf), run, Mark);
    run := run + [Mark];
    Extend(Start(buf), run, Copy);
    run := run + [Copy];
    Extend(Start(buf), run, Fill(payload));
    run := run + [Fill(payload)];
    Extend(Start(buf), run, Publish);
    run := run + [Publish];
  }
}
