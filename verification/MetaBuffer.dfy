/** The metadata ring over a real buffer. Each method of the producer is the code between two
    waits; `ring` is the ring's abstract state, and every method takes it through the steps of
    the step machine. */
module MetaBuffer {
  import opened Blocks
  import opened MetaRing

  /** A whole call of meta_recv on a ring with something in it. */
  ghost function DoRecv(s: Ring): Ring {
    var r := DoPeek(s.(cons := Polled));
    if r.cons.Skipping? then DoSkip(r) else r
  }

  lemma EmptyIff(s: Ring)
    requires Inv(s)
    ensures s.queue == [] <==> s.tail >= s.head
  {
  }

  lemma RecvKeeps(s: Ring)
    requires Inv(s) && s.cons.Free? && s.tail < s.head
    ensures var r := DoRecv(s);
            && Inv(r) && r.cons.Holding? && r.cons.slot == r.tail % 65536 && r.queue != []
            && View(r.buf, r.cons.slot) == r.queue[0]
  {
    PollKeeps(s);
    var p := s.(cons := Polled);
    PeekKeeps(p);
    var r := DoPeek(p);
    if r.cons.Skipping? {
      SkipKeeps(r);
      HeldIsFirst(DoSkip(r));
    } else {
      HeldIsFirst(r);
    }
  }

  /** A held message pointer shows the first message of the queue. */
  lemma HeldIsFirst(s: Ring)
    requires Inv(s) && s.cons.Holding?
    ensures s.queue != [] && View(s.buf, s.cons.slot) == s.queue[0]
    ensures s.cons.slot == s.tail % 65536
  {
    Seen(s.buf, s.tail % 65536, s.queue[0]);
  }

  lemma CompleteKeeps(s: Ring)
    requires Inv(s) && s.cons.Holding?
    ensures var r := DoRetire(DoMeasure(s));
            Inv(r) && s.queue != [] && r.queue == s.queue[1..] && r.taken == s.taken + [s.queue[0]]
  {
    hide Layout, HoldsAt, Place;
    HeldIsFirst(s);
    MeasureKeeps(s);
    RetireKeeps(DoMeasure(s));
  }

  class Buffer {
    const metabuf: array<Byte>
    var metahead: nat
    var metatail: nat
    var prod: Producer
    var cons: Consumer
    ghost var ring: Ring

    ghost predicate Valid()
      reads this, metabuf
    {
      && metabuf.Length == 4194304
      && ring.buf == metabuf[..] && ring.head == metahead && ring.tail == metatail
      && ring.prod == prod && ring.cons == cons
      && Inv(ring)
    }

    constructor ()
      ensures Valid() && fresh(metabuf)
      ensures ring.queue == [] && ring.sent == [] && ring.taken == []
    {
      metabuf := new Byte[4194304](_ => 0);
      metahead, metatail, prod, cons := 0, 0, Ready, Free;
      new;
      ring := Start(metabuf[..]);
    }

    /** memcpy into the buffer, byte by byte. */
    method CopyIn(a: nat, d: seq<Byte>)
      requires a + |d| <= metabuf.Length
      modifies metabuf
      ensures metabuf[..] == Write(old(metabuf[..]), a, d)
    {
      ghost var was := metabuf[..];
      for i := 0 to |d|
        invariant metabuf[..] == Write(was, a, d[..i])
      {
        assert d[..i + 1] == d[..i] + [d[i]];
        metabuf[a + i] := d[i];
      }
      assert d[..|d|] == d;
    }

    /** The header of the next message is in and the counters are loaded; a message that is too
        large ends the process. */
    method Take(hdr: seq<Byte>)
      requires Valid() && prod.Ready? && |hdr| == 16
      modifies `prod, `ring
      ensures Valid() && ring == DoArrive(old(ring), hdr)
    {
      prod := if Size(hdr) < 2097152 then Loaded(hdr, metatail) else Halted;
      ring := ring.(prod := prod);
    }

    /** Chooses the place, writing the wrap marker at once if the message does not fit. */
    method Reserve()
      requires Valid() && prod.Loaded?
      modifies this, metabuf
      ensures Valid() && ring == DoMark(old(ring))
    {
      ghost var was := ring;
      MarkKeeps(was);
      var h := metahead % 65536;
      if h + Slots(Size(prod.hdr)) >= 65536 {
        CopyIn(h * 64, MARK);
        prod := Placed(prod.hdr, metahead + 65536 - h, prod.tail);
      } else {
        prod := Placed(prod.hdr, metahead, prod.tail);
      }
      ring := DoMark(was);
    }

    /** One round of the wait loop: tests the guard with the tail in hand and either loads the
        tail again or copies the header in. */
    method TryCopy() returns (copied: bool)
      requires Valid() && prod.Placed?
      modifies this, metabuf
      ensures Valid() && copied == Can(old(ring), Copy)
      ensures ring == if copied then DoCopy(old(ring)) else old(ring).(prod := prod)
      ensures !copied ==> prod == Placed(old(prod.hdr), old(prod.at), metatail)
    {
      ghost var was := ring;
      var h, t := prod.at % 65536, prod.tail % 65536;
      var n := Slots(Size(prod.hdr));
      if prod.tail + 65536 <= prod.at || (h < t && h + n >= t) {
        prod := Placed(prod.hdr, prod.at, metatail);
        ring := was.(prod := prod);
        return false;
      }
      CopyKeeps(was);
      GuardGivesRoom(was.head, prod.tail, was.tail, n);
      PlaceIsPrivate(was, prod.hdr, prod.at, 0, prod.hdr);
      CopyIn(h * 64, prod.hdr);
      prod := Filling(prod.hdr, prod.at);
      ring := DoCopy(was);
      return true;
    }

    /** The payload as it ends up in place, decrypted. */
    method Load(payload: seq<Byte>)
      requires Valid() && prod.Filling? && |payload| == Size(prod.hdr)
      modifies this, metabuf
      ensures Valid() && ring == DoFill(old(ring), payload)
    {
      hide Layout, HoldsAt, Place;
      ghost var was := ring;
      FillKeeps(was, payload);
      PlaceIsPrivate(was, prod.hdr, prod.at, 16, payload);
      CopyIn(prod.at % 65536 * 64 + 16, payload);
      prod := Filled(prod.hdr, prod.at, payload);
      ring := DoFill(was, payload);
    }

    /** The message becomes visible: it joins the end of the queue. */
    method Release()
      requires Valid() && prod.Filled?
      modifies this
      ensures Valid() && ring == DoPublish(old(ring))
      ensures ring.queue == old(ring.queue) + [old(prod.hdr + prod.payload)]
    {
      hide Layout, HoldsAt, Place;
      PublishKeeps(ring);
      metahead := prod.at + Slots(|prod.payload|);
      ring := DoPublish(ring);
      prod := Ready;
    }

    method IsMarker(t: nat) returns (b: bool)
      requires t < 65536 && metabuf.Length == 4194304
      ensures b == (WordAt(metabuf[..], t) == MARK)
    {
      assert WordAt(metabuf[..], t) == [metabuf[t * 64], metabuf[t * 64 + 1], metabuf[t * 64 + 2], metabuf[t * 64 + 3]];
      return metabuf[t * 64] == 255 && metabuf[t * 64 + 1] == 255 &&
             metabuf[t * 64 + 2] == 255 && metabuf[t * 64 + 3] == 255;
    }

    /** meta_recv: nothing if the queue is empty, else a slot at which the first message of the
        queue can be read. */
    method Recv() returns (some: bool, slot: nat)
      requires Valid() && cons.Free?
      modifies this
      ensures Valid() && ring.queue == old(ring.queue) && ring.taken == old(ring.taken)
      ensures some == (old(ring.queue) != [])
      ensures some ==> cons == Holding(slot) && View(metabuf[..], slot) == ring.queue[0]
      ensures !some ==> cons.Free?
    {
      hide Inv, WordAt, View;
      EmptyIff(ring);
      if metatail >= metahead {
        return false, 0;
      }
      RecvKeeps(ring);
      var t := metatail % 65536;
      var marked := IsMarker(t);
      if marked {
        metatail := metatail + 65536 - t;
        t := 0;
      }
      cons := Holding(t);
      ring := DoRecv(ring);
      return true, t;
    }

    /** meta_complete: the message just read leaves the queue. */
    method Complete()
      requires Valid() && cons.Holding?
      modifies this
      ensures Valid() && cons.Free?
      ensures old(ring.queue) != [] && ring.queue == old(ring.queue)[1..]
      ensures ring.taken == old(ring.taken) + [old(ring.queue)[0]]
    {
      hide Layout, HoldsAt, Place;
      var t := metatail % 65536;
      CompleteKeeps(ring);
      assert WordAt(ring.buf, t) == metabuf[t * 64..t * 64 + 4];
      metatail := metatail + Slots(Size(metabuf[t * 64..t * 64 + 4]));
      cons := Free;
      ring := DoRetire(DoMeasure(ring));
    }
  }
}
