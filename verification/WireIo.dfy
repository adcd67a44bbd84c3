/** The loops under the wire format: io_fixed over short reads and writes, network_send in
    parts, network_recv field by field. */
module WireIo {
  import opened Blocks
  import opened Wire
  import MetaRing

  /** One direction of a socket. Every call moves at least one byte if it can, and as few as
      `chunk` says. */
  class Pipe {
    const chunk: nat -> nat
    var bytes: seq<Byte>
    var at: nat

    constructor (chunk: nat -> nat)
      ensures bytes == [] && at == 0
    {
      this.chunk, bytes, at := chunk, [], 0;
    }

    method Write(d: seq<Byte>) returns (n: nat)
      modifies this
      ensures (d == [] ==> n == 0) && (d != [] ==> 1 <= n <= |d|)
      ensures bytes == old(bytes) + d[..n] && at == old(at)
    {
      n := if d == [] then 0 else 1 + chunk(|bytes|) % |d|;
      bytes := bytes + d[..n];
    }

    method Read(n: nat) returns (d: seq<Byte>)
      requires at <= |bytes|
      modifies this
      ensures |d| <= n && (n > 0 && old(at) < |bytes| ==> d != [])
      ensures bytes == old(bytes) && at == old(at) + |d| <= |bytes| && d == bytes[old(at)..at]
    {
      var m := if n <= |bytes| - at then n else |bytes| - at;
      var k := if m == 0 then 0 else 1 + chunk(at) % m;
      d := bytes[at..at + k];
      at := at + k;
    }

    /** write_fixed. */
    method WriteFixed(d: seq<Byte>)
      modifies this
      ensures bytes == old(bytes) + d && at == old(at)
    {
      var total := 0;
      while total < |d|
        invariant 0 <= total <= |d| && bytes == old(bytes) + d[..total] && at == old(at)
      {
        var n := Write(d[total..]);
        assert d[..total] + d[total..][..n] == d[..total + n];
        total := total + n;
      }
      assert d[..total] == d;
    }

    /** read_fixed: all `sz` bytes, or failure when the other side closed before. */
    method ReadFixed(sz: nat) returns (ok: bool, d: seq<Byte>)
      requires at <= |bytes|
      modifies this
      ensures bytes == old(bytes) && old(at) <= at <= |bytes|
      ensures ok == (old(at) + sz <= |bytes|)
      ensures ok ==> at == old(at) + sz && d == bytes[old(at)..at]
    {
      d := [];
      while |d| < sz
        invariant |d| <= sz && bytes == old(bytes) && at == old(at) + |d| <= |bytes|
        invariant d == bytes[old(at)..at]
        decreases sz - |d|
      {
        var e := Read(sz - |d|);
        if e == [] {
          return false, [];
        }
        assert bytes[old(at)..at] == d + e;
        d := d + e;
      }
      return true, d;
    }
  }

  /** What one call of network_send puts on the wire: the counter in front of a first part, the
      sealed part, and the tag of all parts after the last. */
  function Part(c: Cipher, n: nat, first: bool, start: seq<Byte>, buf: seq<Byte>, more: bool): seq<Byte> {
    (if first then Le(n, 8) else []) + Enc(c, n, |start|, buf) +
    (if more then [] else c.tag(n, start + Enc(c, n, |start|, buf)))
  }

  lemma OnePart(c: Cipher, n: nat, head: seq<Byte>)
    ensures Part(c, n, true, [], head, false) == Frame(c, n, head)
  {
    assert [] + Enc(c, n, 0, head) == Enc(c, n, 0, head);
  }

  /** A frame sent in two parts is the frame sent in one. */
  lemma TwoParts(c: Cipher, n: nat, head: seq<Byte>, data: seq<Byte>)
    ensures Part(c, n, true, [], head, true) + Part(c, n, false, Enc(c, n, 0, head), data, false)
            == Frame(c, n, head + data)
    ensures [] + Enc(c, n, 0, head) == Enc(c, n, 0, head)
  {
    EncParts(c, n, 0, head, data);
  }

  /** The sending side of a connection. */
  class Sender {
    const c: Cipher
    const server: bool
    const pipe: Pipe
    var iv: nat
    var didHeader: bool
    var sealed: seq<Byte>    // what has been sealed of the frame under way

    constructor (c: Cipher, server: bool, pipe: Pipe, iv: nat)
      ensures this.c == c && this.server == server && this.pipe == pipe && this.iv == iv && !didHeader
    {
      this.c, this.server, this.pipe, this.iv := c, server, pipe, iv;
      didHeader, sealed := false, [];
    }

    /** network_send: the counter once per frame, the part, and the tag after the last part. It
        fails when the counter is used up or the part is empty; callers then end the process. */
    method Send(buf: seq<Byte>, more: bool, short: bool) returns (ok: bool)
      modifies this, pipe
      ensures iv == if old(didHeader) then old(iv) else NextIv(old(iv), server, short)
      ensures ok == (buf != [] && (old(didHeader) || !Has61(iv)))
      ensures !old(didHeader) && Has61(iv) ==> pipe.bytes == old(pipe.bytes)
      ensures ok ==>
        var start := if old(didHeader) then old(sealed) else [];
        && pipe.bytes == old(pipe.bytes) + Part(c, iv, !old(didHeader), start, buf, more)
        && didHeader == more && (more ==> sealed == start + Enc(c, iv, |start|, buf))
    {
      if !didHeader {
        iv := NextIv(iv, server, short);
        if Has61(iv) {
          return false;
        }
        didHeader, sealed := true, [];
        pipe.WriteFixed(Le(iv, 8));
      }
      if buf == [] {
        return false;
      }
      var e := Enc(c, iv, |sealed|, buf);
      pipe.WriteFixed(e);
      sealed := sealed + e;
      if !more {
        pipe.WriteFixed(c.tag(iv, sealed));
        didHeader := false;
      }
      return true;
    }

    /** meta_send and the two sends of a data block: head and payload in two parts, or the head
        alone. Whichever way, one whole frame goes out. */
    method SendMessage(m: Message) returns (ok: bool)
      requires !didHeader && MessageOk(m) && (m.Block? ==> m.data != [])
      modifies this, pipe
      ensures iv == NextIv(old(iv), server, m.Block?) && ok == !Has61(iv)
      ensures ok ==> !didHeader && pipe.bytes == old(pipe.bytes) + Frame(c, iv, Head(m) + Payload(m))
      ensures !ok ==> pipe.bytes == old(pipe.bytes)
    {
      HeadReads(m);
      hide NextIv, Has61, Enc, Head, Payload, MessageOk, Part, Frame;
      ghost var start := pipe.bytes;
      if Payload(m) == [] {
        ok := Send(Head(m), false, m.Block?);
        assert Head(m) + Payload(m) == Head(m);
        OnePart(c, iv, Head(m));
      } else {
        ok := Send(Head(m), true, m.Block?);
        if ok {
          TwoParts(c, iv, Head(m), Payload(m));
          Associates(start, Part(c, iv, true, [], Head(m), true), Part(c, iv, false, sealed, Payload(m), false));
          ok := Send(Payload(m), false, m.Block?);
        }
      }
    }

    /** All messages of a connection, one after the other: what goes out is the stream of the wire
        format, up to the first counter that fails the check. */
    method SendAll(ms: seq<Message>) returns (n: nat)
      requires !didHeader && forall i | 0 <= i < |ms| :: MessageOk(ms[i]) && (ms[i].Block? ==> ms[i].data != [])
      modifies this, pipe
      ensures n == Sendable(old(iv), server, ms)
      ensures pipe.bytes == old(pipe.bytes) + Stream(c, old(iv), server, ms)
    {
      hide NextIv, Has61, Frame, Head, Payload, MessageOk, Stream, Sendable;
      n := 0;
      assert ms[0..] == ms;
      while n < |ms|
        invariant 0 <= n <= |ms| && !didHeader
        invariant n + Sendable(iv, server, ms[n..]) == Sendable(old(iv), server, ms)
        invariant pipe.bytes + Stream(c, iv, server, ms[n..]) == old(pipe.bytes) + Stream(c, old(iv), server, ms)
      {
        ghost var sent := pipe.bytes;
        StreamStep(c, iv, server, ms[n..], sent);
        assert ms[n..][1..] == ms[n + 1..];
        var ok := SendMessage(ms[n]);
        if !ok {
          return;
        }
        n := n + 1;
      }
      NothingLeft(c, iv, server, ms[n..]);
    }
  }

  /** The stream of a connection after `sent`, with its first message taken off. */
  lemma StreamStep(c: Cipher, x: nat, server: bool, ms: seq<Message>, sent: seq<Byte>)
    requires ms != []
    ensures var y := NextIv(x, server, ms[0].Block?);
            if Has61(y) then sent + Stream(c, x, server, ms) == sent && Sendable(x, server, ms) == 0
            else sent + Stream(c, x, server, ms)
                 == sent + Frame(c, y, Head(ms[0]) + Payload(ms[0])) + Stream(c, y, server, ms[1..])
                 && Sendable(x, server, ms) == 1 + Sendable(y, server, ms[1..])
  {
    hide NextIv, Has61, Frame, Head, Payload;
    var y := NextIv(x, server, ms[0].Block?);
    if !Has61(y) {
      Associates(sent, Frame(c, y, Head(ms[0]) + Payload(ms[0])), Stream(c, y, server, ms[1..]));
    }
  }

  lemma NothingLeft(c: Cipher, x: nat, server: bool, ms: seq<Message>)
    requires ms == []
    ensures Stream(c, x, server, ms) == [] && Sendable(x, server, ms) == 0
  {
  }

  lemma Associates(s: seq<Byte>, a: seq<Byte>, b: seq<Byte>)
    ensures s + a + b == s + (a + b)
  {
  }

  lemma SliceOfRest(bytes: seq<Byte>, at: nat, a: nat, b: nat)
    requires at <= |bytes| && a <= b <= |bytes| - at
    ensures bytes[at..][a..b] == bytes[at + a..at + b]
    ensures bytes[at..][b..] == bytes[at + b..]
  {
  }

  /** network_recv: the next message, if all its bytes arrive and the tag is right. */
  method Receive(c: Cipher, pipe: Pipe) returns (r: Parsed)
    requires pipe.at <= |pipe.bytes|
    modifies pipe
    ensures pipe.bytes == old(pipe.bytes) && pipe.at <= |pipe.bytes|
    ensures r == Parse(c, old(pipe.bytes)[old(pipe.at)..]) && (r.Got? ==> pipe.bytes[pipe.at..] == r.rest)
  {
    hide FromLe, ParseBody;
    ghost var bytes, at := pipe.bytes, pipe.at;
    var ok, aad := pipe.ReadFixed(8);
    if !ok {
      return Short;
    }
    SliceOfRest(bytes, at, 0, 8);
    r := ReceiveBody(c, pipe, FromLe(aad));
  }

  method ReceiveBody(c: Cipher, pipe: Pipe, n: nat) returns (r: Parsed)
    requires pipe.at <= |pipe.bytes|
    modifies pipe
    ensures pipe.bytes == old(pipe.bytes) && pipe.at <= |pipe.bytes|
    ensures r == ParseBody(c, n, old(pipe.bytes)[old(pipe.at)..]) && (r.Got? ==> pipe.bytes[pipe.at..] == r.rest)
  {
    hide Has62, Dec, HeadSize, Rebuild;
    ghost var bytes, at := pipe.bytes, pipe.at;
    var short := Has62(n);
    var h := HeadLength(short);
    var ok, sealedHead := pipe.ReadFixed(h);
    if !ok {
      return Short;
    }
    SliceOfRest(bytes, at, 0, h);
    var head := Dec(c, n, 0, sealedHead);
    var sz := HeadSize(short, head);
    var sealed, tag;
    ok, sealed := pipe.ReadFixed(sz);
    if !ok {
      return Short;
    }
    SliceOfRest(bytes, at, h, h + sz);
    ok, tag := pipe.ReadFixed(16);
    if !ok {
      return Short;
    }
    SliceOfRest(bytes, at, h + sz, h + sz + 16);
    SliceOfRest(bytes, at, 0, h + sz);
    assert sealedHead + sealed == bytes[at..at + h + sz];
    if tag != c.tag(n, sealedHead + sealed) {
      return Bad;
    }
    return Got(Rebuild(short, head, Dec(c, n, h, sealed)), pipe.bytes[pipe.at..]);
  }

  /** The receiving loop: everything that can be got out of the bytes that arrive. */
  method ReceiveAll(c: Cipher, pipe: Pipe) returns (ms: seq<Message>)
    requires pipe.at <= |pipe.bytes|
    modifies pipe
    ensures pipe.bytes == old(pipe.bytes) && ms == ParseAll(c, old(pipe.bytes)[old(pipe.at)..])
  {
    hide Parse;
    ms := [];
    ghost var s := pipe.bytes[pipe.at..];
    while true
      invariant pipe.bytes == old(pipe.bytes) && pipe.at <= |pipe.bytes|
      invariant ms + ParseAll(c, pipe.bytes[pipe.at..]) == ParseAll(c, s)
      decreases |pipe.bytes| - pipe.at
    {
      ghost var rest := pipe.bytes[pipe.at..];
      var r := Receive(c, pipe);
      if !r.Got? {
        return;
      }
      ParsePrefix(c, rest, |rest|);
      ms := ms + [r.m];
    }
  }
}
