/** The write path of the one-deep engine: a block is read into the engine's buffer, padded to
    4096 bytes with whatever the buffer held before, and written, or skipped if it is all zero
    and the transfer is sparse. */
module PosixEngine {
  import opened Blocks
  import opened Disk

  /** memcmp_zero: 0 if the bytes are all zero, looking at 64 bytes at a time. */
  method MemcmpZero(buf: array<Byte>, sz: nat) returns (r: int)
    requires sz % 64 == 0 && sz <= buf.Length
    ensures r == if AllZero(buf[..sz]) then 0 else 1
  {
    var offset := 0;
    while offset < sz
      invariant 0 <= offset <= sz && offset % 64 == 0
      invariant AllZero(buf[..offset])
    {
      var zero := ChunkIsZero(buf, offset);
      if !zero {
        return 1;
      }
      assert buf[..offset + 64] == buf[..offset] + buf[offset..offset + 64];
      offset := offset + 64;
    }
    return 0;
  }

  /** The four lane tests. */
  method ChunkIsZero(buf: array<Byte>, offset: nat) returns (zero: bool)
    requires offset + 64 <= buf.Length
    ensures zero == AllZero(buf[offset..offset + 64])
    ensures !zero ==> forall sz | offset + 64 <= sz <= buf.Length :: !AllZero(buf[..sz])
  {
    zero := true;
    var i := 0;
    while i < 64
      invariant 0 <= i <= 64
      invariant zero <==> forall k | offset <= k < offset + i :: buf[k] == 0
    {
      zero := zero && buf[offset + i] == 0;
      i := i + 1;
    }
    if !zero {
      ghost var j :| offset <= j < offset + 64 && buf[j] != 0;
      ghost var k := j - offset;
      assert buf[offset..offset + 64][k] != 0;
      forall sz | offset + 64 <= sz <= buf.Length
        ensures !AllZero(buf[..sz])
      {
        assert buf[..sz][offset + k] != 0;
      }
    }
  }

  /** One receive worker's engine writing to one file. */
  class Writer {
    const sparse: bool
    const buf: array<Byte>
    var head: nat
    var tail: nat
    var sz: nat
    var offset: nat
    var disk: seq<Byte>

    ghost predicate Valid()
      reads this
    {
      tail <= head <= tail + 1 && buf.Length % 4096 == 0
    }

    constructor (sparse: bool, buf: array<Byte>)
      requires buf.Length % 4096 == 0
      ensures Valid() && head == tail && disk == [] && this.buf == buf && this.sparse == sparse
    {
      this.sparse, this.buf := sparse, buf;
      head, tail, sz, offset, disk := 0, 0, 0, 0, [];
    }

    /** fetch: the buffer is handed out only while no operation is pending. */
    method Fetch() returns (ok: bool)
      requires Valid()
      modifies `head
      ensures Valid() && ok == (old(head) == tail) && head == if ok then old(head) + 1 else old(head)
    {
      if head - tail >= 1 {
        return false;
      }
      head := head + 1;
      return true;
    }

    /** network_recv reads the payload into the front of the buffer; the rest stays as it was. */
    method Load(payload: seq<Byte>)
      requires Valid() && |payload| <= buf.Length
      modifies buf
      ensures buf[..] == payload + old(buf[..])[|payload|..]
    {
      ghost var was := buf[..];
      for i := 0 to |payload|
        invariant forall k | 0 <= k < i :: buf[k] == payload[k]
        invariant forall k | i <= k < buf.Length :: buf[k] == was[k]
      {
        buf[i] := payload[i];
      }
    }

    /** submit on a file opened for writing. */
    method Submit() returns (done: bool)
      requires Valid() && sz % 64 == 0 && sz <= buf.Length
      modifies `tail, `disk
      ensures Valid() && done == (old(tail) < head) && tail == if done then old(tail) + 1 else old(tail)
      ensures disk == if done then Store(sparse, old(disk), offset, buf[..sz]) else old(disk)
    {
      if tail >= head {
        return false;
      }
      var write := true;
      if sparse {
        var res := MemcmpZero(buf, sz);
        if res == 0 {
          write := false;
        }
      }
      if write {
        disk := PWrite(disk, offset, buf[..sz]);
      }
      tail := tail + 1;
      return true;
    }

    /** A data frame on its way to the file: what is stored is the payload and a pad that brings
        it to a multiple of 4096 bytes. */
    method WriteBlock(payload: seq<Byte>, at: nat) returns (ghost pad: seq<Byte>)
      requires Valid() && head == tail && |payload| <= buf.Length
      modifies this, buf
      ensures Valid() && head == tail && PadOk(payload, pad)
      ensures disk == Store(sparse, old(disk), at, payload + pad)
    {
      var ok := Fetch();
      Load(payload);
      offset := at;
      sz := PadUp(|payload|);
      PadInBuffer(|payload|, buf.Length);
      pad := buf[|payload|..sz];
      assert buf[..sz] == payload + pad;
      var done := Submit();
      assert ok && done;
    }
  }

  lemma PadInBuffer(n: nat, size: nat)
    requires size % 4096 == 0 && n <= size
    ensures n <= PadUp(n) <= size && PadUp(n) % 64 == 0
  {
  }
}
