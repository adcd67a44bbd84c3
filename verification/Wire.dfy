/** Frames on a connection: 8 bytes of counter in clear, an encrypted body, a 16-byte tag.

    The counter's top bits carry the direction and the frame type. A metadata body starts with a
    16-byte header whose first four bytes are the payload size in network order; a data body
    starts with 20 bytes of offset, file number and size, the size's top bit telling whether the
    payload is compressed. Encryption is any positional cipher with its inverse, and the tag any
    function of the counter and the encrypted body.
 */
module Wire {
  import opened Blocks
  import Bits
  import MetaRing

  // ---- Numbers as bytes ----

  function Pow256(k: nat): (r: nat)
    ensures r > 0
  {
    if k == 0 then 1 else 256 * Pow256(k - 1)
  }

  /** The `k` low bytes of a number, lowest first. */
  function Le(n: nat, k: nat): (s: seq<Byte>)
    ensures |s| == k
  {
    if k == 0 then [] else [(n % 256) as Byte] + Le(n / 256, k - 1)
  }

  function FromLe(s: seq<Byte>): nat {
    if s == [] then 0 else s[0] as nat + 256 * FromLe(s[1..])
  }

  lemma {:induction false} LeRoundTrip(n: nat, k: nat)
    requires n < Pow256(k)
    ensures FromLe(Le(n, k)) == n
    decreases k
  {
    if k > 0 {
      LeRoundTrip(n / 256, k - 1);
      assert Le(n, k)[1..] == Le(n / 256, k - 1);
    }
  }

  /** Byte `i` is the digit of weight 256 to the `i`. */
  lemma {:induction false} LeDigits(n: nat, k: nat, i: nat)
    requires i < k
    ensures Le(n, k)[i] as nat == n / Pow256(i) % 256
    decreases k
  {
    if i > 0 {
      LeDigits(n / 256, k - 1, i - 1);
      Nested(n, Pow256(i - 1));
    }
  }

  lemma Nested(n: nat, b: nat)
    requires b > 0
    ensures n / 256 / b == n / (256 * b)
  {
    var q := n / 256;
    var x, y := q / b, q % b;
    assert (256 * b) * x == 256 * (b * x);
    Bits.Remainder(n, 256 * b, x, 256 * y + n % 256);
  }

  /** `u16::to_be_bytes`. */
  function Be16(n: nat): (s: seq<Byte>)
    ensures |s| == 2
  {
    [(n / 256 % 256) as Byte, (n % 256) as Byte]
  }

  /** to_header: size in two big-endian halves, then the type. */
  function ToHeader(sz: nat, typ: nat): (s: seq<Byte>)
    ensures |s| == 6
  {
    Be16(sz / 65536) + Be16(sz % 65536) + Be16(typ)
  }

  /** from_header. */
  function FromHeader(s: seq<Byte>): (nat, nat)
    requires |s| >= 6
  {
    (s[0] as nat * 16777216 + s[1] as nat * 65536 + s[2] as nat * 256 + s[3] as nat, s[4] as nat * 256 + s[5] as nat)
  }

  /** What one side writes the other reads, in Rust and, for the size, in C through ntohl; the
      native little-endian reading of the type is 0xB43, the mark of BYE, for 0x430B alone. */
  lemma HeaderRoundTrip(sz: nat, typ: nat, pad: seq<Byte>)
    requires sz < 0x1_0000_0000 && typ < 0x1_0000
    ensures FromHeader(ToHeader(sz, typ) + pad) == (sz, typ)
    ensures MetaRing.Size(ToHeader(sz, typ) + pad) == sz
    ensures FromLe((ToHeader(sz, typ) + pad)[4..6]) == 0xB43 <==> typ == 0x430B
  {
    var h := ToHeader(sz, typ) + pad;
    assert h[0] == (sz / 65536 / 256 % 256) as Byte && h[1] == (sz / 65536 % 256) as Byte;
    assert h[2] == (sz % 65536 / 256 % 256) as Byte && h[3] == (sz % 65536 % 256) as Byte;
    assert h[4] == (typ / 256 % 256) as Byte && h[5] == (typ % 256) as Byte;
    assert h[4..6] == [h[4], h[5]];
    assert FromLe([h[5]]) == h[5] as nat + 256 * FromLe([h[5]][1..]);
  }

  /** The BYE header as the C side writes it: size 0, then 0xB43 in native order. */
  function ByeHeader(): seq<Byte> { Le(0, 4) + Le(0xB43, 2) }

  const TYPES: set<nat> := {1, 8, 9, 16, 17, 18, 19}

  /** No message type of the control protocol, compressed or not, is taken for BYE, and BYE is
      read as size 0 and type 0x430B. */
  lemma ByeIsAlone(sz: nat, typ: nat)
    requires sz < 0x1_0000_0000 && (typ in TYPES || (typ >= 128 && typ - 128 in TYPES))
    ensures FromLe(ToHeader(sz, typ)[4..6]) != 0xB43
    ensures FromHeader(ByeHeader()) == (0, 0x430B) && FromLe(ByeHeader()[4..6]) == 0xB43
  {
    HeaderRoundTrip(sz, typ, []);
    assert ToHeader(sz, typ) + [] == ToHeader(sz, typ);
    assert Le(0xB43, 2) == [0x43, 0x0B];
    assert Le(0, 4) == [0, 0, 0, 0];
    assert ByeHeader()[4..6] == Le(0xB43, 2);
    LeRoundTrip(0xB43, 2);
  }

  // ---- Counters ----

  const BIT62: nat := 0x4000_0000_0000_0000
  const BIT63: nat := 0x8000_0000_0000_0000

  predicate Has61(x: nat) { x / 0x2000_0000_0000_0000 % 2 == 1 }
  predicate Has62(x: nat) { x / 0x4000_0000_0000_0000 % 2 == 1 }
  predicate Has63(x: nat) { x / 0x8000_0000_0000_0000 % 2 == 1 }

  function Low61(x: nat): nat { x % 0x2000_0000_0000_0000 }

  /** The counter of the next frame: direction bit, type bit, then plus one in 64 bits. */
  function NextIv(x: nat, server: bool, short: bool): nat {
    var a := if server && !Has63(x) then x + BIT63 else x;
    var b := if short && !Has62(a) then a + BIT62 else if !short && Has62(a) then a - BIT62 else a;
    (b + 1) % 0x1_0000_0000_0000_0000
  }

  predicate IvOk(x: nat) { x < 0x1_0000_0000_0000_0000 && !Has61(x) }

  /** A counter put together from its direction, its type, bit 61 and its 61-bit count. */
  function Iv(r: bool, s: bool, over: bool, low: nat): nat {
    (if r then 0x8000_0000_0000_0000 else 0) + (if s then 0x4000_0000_0000_0000 else 0) +
    (if over then 0x2000_0000_0000_0000 else 0) + low
  }

  lemma IvParts(r: bool, s: bool, over: bool, low: nat)
    requires low < 0x2000_0000_0000_0000
    ensures var x := Iv(r, s, over, low);
            && x < 0x1_0000_0000_0000_0000
            && Has63(x) == r && Has62(x) == s && Has61(x) == over && Low61(x) == low
  {
  }

  lemma IvWhole(x: nat)
    requires x < 0x1_0000_0000_0000_0000
    ensures x == Iv(Has63(x), Has62(x), Has61(x), Low61(x)) && Low61(x) < 0x2000_0000_0000_0000
  {
  }

  /** Every header that passes the check counts one further, whatever its type, and shows its
      type and direction. */
  lemma IvAdvances(x: nat, server: bool, short: bool)
    requires IvOk(x) && !Has61(NextIv(x, server, short))
    ensures var y := NextIv(x, server, short);
            IvOk(y) && Low61(y) == Low61(x) + 1 && (Has62(y) <==> short) && (Has63(y) <==> Has63(x) || server)
  {
    hide Has61, Has62, Has63, Low61, NextIv, Iv;
    IvBase(x, server, short);
    var low := Low61(x);
    IvPlusOne(Has63(x) || server, short, low);
    if low + 1 < 0x2000_0000_0000_0000 {
      IvParts(Has63(x) || server, short, false, low + 1);
    } else {
      IvParts(Has63(x) || server, short, true, 0);
    }
  }

  lemma IvPlusOne(r: bool, s: bool, low: nat)
    ensures Iv(r, s, false, low) + 1 == Iv(r, s, false, low + 1)
    ensures low + 1 == 0x2000_0000_0000_0000 ==> Iv(r, s, false, low) + 1 == Iv(r, s, true, 0)
  {
  }

  lemma IvBase(x: nat, server: bool, short: bool)
    requires IvOk(x)
    ensures NextIv(x, server, short) == (Iv(Has63(x) || server, short, false, Low61(x)) + 1) % 0x1_0000_0000_0000_0000
    ensures Low61(x) < 0x2000_0000_0000_0000
  {
    hide Has61, Has62, Has63, Low61;
    var r, s, low := Has63(x), Has62(x), Low61(x);
    IvWhole(x);
    IvParts(r || server, s, false, low);
  }

  /** The counters used for frames of the given types, one after the other; nothing if the check
      stops the process. */
  function Ivs(x: nat, server: bool, shorts: seq<bool>): seq<nat>
    decreases |shorts|
  {
    if shorts == [] then []
    else
      var y := NextIv(x, server, shorts[0]);
      if Has61(y) then [] else [y] + Ivs(y, server, shorts[1..])
  }

  lemma {:induction false} IvsIncrease(x: nat, server: bool, shorts: seq<bool>)
    requires IvOk(x)
    ensures |Ivs(x, server, shorts)| <= |shorts|
    ensures forall i | 0 <= i < |Ivs(x, server, shorts)| ::
              Low61(Ivs(x, server, shorts)[i]) == Low61(x) + 1 + i && (Has62(Ivs(x, server, shorts)[i]) <==> shorts[i])
    decreases |shorts|
  {
    if shorts != [] {
      var y := NextIv(x, server, shorts[0]);
      if !Has61(y) {
        IvAdvances(x, server, shorts[0]);
        IvsIncrease(y, server, shorts[1..]);
        hide Low61, Has62, NextIv;
        var all, tail := Ivs(x, server, shorts), Ivs(y, server, shorts[1..]);
        forall i | 0 <= i < |all|
          ensures Low61(all[i]) == Low61(x) + 1 + i && (Has62(all[i]) <==> shorts[i])
        {
          assert i > 0 ==> all[i] == tail[i - 1] && shorts[1..][i - 1] == shorts[i];
        }
      }
    }
  }

  /** No two frames of a connection share a counter, and so none share a nonce. */
  lemma NoncesAreDistinct(x: nat, server: bool, shorts: seq<bool>, i: nat, j: nat)
    requires IvOk(x) && i < j < |Ivs(x, server, shorts)|
    ensures Ivs(x, server, shorts)[i] != Ivs(x, server, shorts)[j]
  {
    IvsIncrease(x, server, shorts);
  }

  // ---- The two directions of a connection ----

  /** The direction bit of every frame: set by a server, left as it was found by a client. */
  lemma {:induction false} IvsDirection(x: nat, server: bool, shorts: seq<bool>)
    requires IvOk(x)
    ensures forall i | 0 <= i < |Ivs(x, server, shorts)| :: Has63(Ivs(x, server, shorts)[i]) == (Has63(x) || server)
    decreases |shorts|
  {
    if shorts != [] {
      var y := NextIv(x, server, shorts[0]);
      if !Has61(y) {
        IvAdvances(x, server, shorts[0]);
        IvsDirection(y, server, shorts[1..]);
      }
    }
  }

  /** The counter of metadata frame `k`, if nothing else is sent. */
  lemma {:induction false} MetaIv(x: nat, server: bool, k: nat)
    requires IvOk(x) && Low61(x) + 1 + k < 0x2000_0000_0000_0000
    ensures |Ivs(x, server, seq(k + 1, _ => false))| == k + 1
    ensures Ivs(x, server, seq(k + 1, _ => false))[k] == Iv(Has63(x) || server, false, false, Low61(x) + 1 + k)
    decreases k
  {
    hide Has61, Has62, Has63, Low61, NextIv, Iv;
    var shorts := seq(k + 1, _ => false);
    var y := NextIv(x, server, false);
    FirstMeta(x, server);
    if k > 0 {
      assert shorts[1..] == seq(k, _ => false);
      MetaIv(y, server, k - 1);
    }
  }

  lemma FirstMeta(x: nat, server: bool)
    requires IvOk(x) && Low61(x) + 1 < 0x2000_0000_0000_0000
    ensures var y := NextIv(x, server, false);
            && y == Iv(Has63(x) || server, false, false, Low61(x) + 1)
            && IvOk(y) && Low61(y) == Low61(x) + 1 && Has63(y) == (Has63(x) || server) && !Has61(y)
  {
    hide Has61, Has62, Has63, Low61, NextIv, Iv;
    IvBase(x, server, false);
    IvPlusOne(Has63(x) || server, false, Low61(x));
    IvParts(Has63(x) || server, false, false, Low61(x) + 1);
  }

  /** No frame of a client that starts at `x` shares a counter with one of a server that starts
      at `y`, whatever the two send. */
  ghost predicate Disjoint(x: nat, y: nat) {
    forall a: seq<bool>, b: seq<bool>, i, j |
      0 <= i < |Ivs(x, false, a)| && 0 <= j < |Ivs(y, true, b)| :: Ivs(x, false, a)[i] != Ivs(y, true, b)[j]
  }

  function Larger(a: nat, b: nat): nat { if a >= b then a else b }

  /** Both directions of the metadata connection use one key. Their counters never meet if and only
      if the client starts without the direction bit, or one side has used up its counters. In the
      protocol the client always does: it has made its copy before the server can send. */
  lemma DirectionsDisjointIff(x: nat, y: nat)
    requires IvOk(x) && IvOk(y)
    ensures Disjoint(x, y) <==> !Has63(x) || Larger(Low61(x), Low61(y)) + 1 >= 0x2000_0000_0000_0000
  {
    if !Has63(x) {
      forall a: seq<bool>, b: seq<bool>, i, j | 0 <= i < |Ivs(x, false, a)| && 0 <= j < |Ivs(y, true, b)|
        ensures Ivs(x, false, a)[i] != Ivs(y, true, b)[j]
      {
        IvsDirection(x, false, a);
        IvsDirection(y, true, b);
      }
    } else if Larger(Low61(x), Low61(y)) + 1 >= 0x2000_0000_0000_0000 {
      forall a: seq<bool>, b: seq<bool>, i, j | 0 <= i < |Ivs(x, false, a)| && 0 <= j < |Ivs(y, true, b)|
        ensures Ivs(x, false, a)[i] != Ivs(y, true, b)[j]
      {
        IvsIncrease(x, false, a);
        IvsIncrease(y, true, b);
      }
    } else {
      CountersMeet(x, y);
    }
  }

  lemma CountersMeet(x: nat, y: nat)
    requires IvOk(x) && IvOk(y) && Has63(x) && Larger(Low61(x), Low61(y)) + 1 < 0x2000_0000_0000_0000
    ensures !Disjoint(x, y)
  {
    hide Has61, Has62, Has63, Low61, NextIv, Iv, Ivs;
    var top := Larger(Low61(x), Low61(y));
    var i, j := top - Low61(x), top - Low61(y);
    MetaIv(x, false, i);
    MetaIv(y, true, j);
    assert Ivs(x, false, seq(i + 1, _ => false))[i] == Ivs(y, true, seq(j + 1, _ => false))[j];
  }

  /** What the order of the first frames rules out: a client that took over the server's last counter
      would repeat its next one at once. */
  lemma CopiedCounterCollides(y: nat, short: bool)
    requires Has63(y)
    ensures NextIv(y, false, short) == NextIv(y, true, short)
  {
  }

  // ---- Frames ----

  datatype Cipher = Cipher(enc: (nat, nat, Byte) -> Byte, dec: (nat, nat, Byte) -> Byte,
                           tag: (nat, seq<Byte>) -> seq<Byte>)

  ghost predicate CipherOk(c: Cipher) {
    && (forall n, i, b :: c.dec(n, i, c.enc(n, i, b)) == b)
    && (forall n, s :: |c.tag(n, s)| == 16)
  }

  /** Encrypts bytes at positions `at` and following. */
  function Enc(c: Cipher, n: nat, at: nat, s: seq<Byte>): (r: seq<Byte>)
    ensures |r| == |s|
  {
    seq(|s|, i requires 0 <= i < |s| => c.enc(n, at + i, s[i]))
  }

  function Dec(c: Cipher, n: nat, at: nat, s: seq<Byte>): (r: seq<Byte>)
    ensures |r| == |s|
  {
    seq(|s|, i requires 0 <= i < |s| => c.dec(n, at + i, s[i]))
  }

  lemma DecEnc(c: Cipher, n: nat, at: nat, s: seq<Byte>)
    requires CipherOk(c)
    ensures Dec(c, n, at, Enc(c, n, at, s)) == s
  {
  }

  /** Sealing in parts is sealing in one go. */
  lemma EncParts(c: Cipher, n: nat, at: nat, a: seq<Byte>, b: seq<Byte>)
    ensures Enc(c, n, at, a + b) == Enc(c, n, at, a) + Enc(c, n, at + |a|, b)
  {
  }

  /** With a cipher that maps no byte to itself, no byte of the body goes out in clear. */
  lemma NothingInClear(c: Cipher, n: nat, at: nat, s: seq<Byte>, i: nat)
    requires (forall n, i, b :: c.enc(n, i, b) != b) && i < |s|
    ensures Enc(c, n, at, s)[i] != s[i] && Enc(c, n, at, s)[i] == c.enc(n, at + i, s[i])
  {
  }

  function Frame(c: Cipher, n: nat, body: seq<Byte>): seq<Byte> {
    Le(n, 8) + Enc(c, n, 0, body) + c.tag(n, Enc(c, n, 0, body))
  }

  /** A metadata message, or a data block with its compression mark. */
  datatype Message =
    | Meta(hdr: seq<Byte>, payload: seq<Byte>)
    | Block(offset: nat, file: nat, packed: bool, data: seq<Byte>)

  /** What the callers of network_send hand over. */
  predicate MessageOk(m: Message) {
    match m
    case Meta(hdr, payload) => |hdr| == 16 && MetaRing.Size(hdr) == |payload|
    case Block(offset, file, packed, data) =>
      offset < Pow256(8) && file < Pow256(8) && |data| < 0x8000_0000
  }

  /** The fixed first part: 16 bytes of metadata header, or 20 bytes of block header. */
  function Head(m: Message): seq<Byte> {
    match m
    case Meta(hdr, _) => hdr
    case Block(offset, file, packed, data) =>
      Le(offset, 8) + Le(file, 8) + Le(|data| + if packed then 0x8000_0000 else 0, 4)
  }

  function Payload(m: Message): seq<Byte> { if m.Meta? then m.payload else m.data }

  datatype Parsed = Short | Bad | Got(m: Message, rest: seq<Byte>)

  /** Reads the fields back from a decrypted head. */
  function HeadSize(short: bool, head: seq<Byte>): nat
    requires |head| == if short then 20 else 16
  {
    if short then FromLe(head[16..20]) % 0x8000_0000 else MetaRing.Size(head)
  }

  function Rebuild(short: bool, head: seq<Byte>, payload: seq<Byte>): Message
    requires |head| == if short then 20 else 16
  {
    if short then Block(FromLe(head[..8]), FromLe(head[8..16]), FromLe(head[16..20]) / 0x8000_0000 % 2 == 1, payload)
    else Meta(head, payload)
  }

  function HeadLength(short: bool): nat { if short then 20 else 16 }

  /** What follows the counter: head, payload of the size the head says, tag. */
  function ParseBody(c: Cipher, n: nat, s: seq<Byte>): Parsed {
    var short := Has62(n);
    var h := HeadLength(short);
    if |s| < h then Short
    else
      var head := Dec(c, n, 0, s[..h]);
      var sz := HeadSize(short, head);
      if |s| < h + sz + 16 then Short
      else if s[h + sz..h + sz + 16] != c.tag(n, s[..h + sz]) then Bad
      else Got(Rebuild(short, head, Dec(c, n, h, s[h..h + sz])), s[h + sz + 16..])
  }

  /** network_recv on the bytes that will ever arrive. */
  function Parse(c: Cipher, s: seq<Byte>): Parsed {
    if |s| < 8 then Short else ParseBody(c, FromLe(s[..8]), s[8..])
  }

  lemma HeadReads(m: Message)
    requires MessageOk(m)
    ensures |Head(m)| == HeadLength(m.Block?)
    ensures HeadSize(m.Block?, Head(m)) == |Payload(m)| && Rebuild(m.Block?, Head(m), Payload(m)) == m
  {
    if m.Block? {
      BlockHead(m);
    }
  }

  /** Where the fields of a block head are: offset, file number, then the size with the mark on top. */
  lemma BlockHead(m: Message)
    requires MessageOk(m) && m.Block?
    ensures |Head(m)| == 20
    ensures FromLe(Head(m)[..8]) == m.offset && FromLe(Head(m)[8..16]) == m.file
    ensures FromLe(Head(m)[16..20]) == |m.data| + if m.packed then 0x8000_0000 else 0
  {
    var v := |m.data| + if m.packed then 0x8000_0000 else 0;
    assert Pow256(4) == 0x1_0000_0000;
    LeRoundTrip(m.offset, 8);
    LeRoundTrip(m.file, 8);
    LeRoundTrip(v, 4);
    ThreeFields(Le(m.offset, 8), Le(m.file, 8), Le(v, 4));
    hide Le, FromLe, Pow256;
  }

  lemma ThreeFields(a: seq<Byte>, b: seq<Byte>, d: seq<Byte>)
    requires |a| == 8 && |b| == 8 && |d| == 4
    ensures var s := a + b + d; s[..8] == a && s[8..16] == b && s[16..20] == d
  {
  }

  lemma Slices(a: seq<Byte>, b: seq<Byte>, tag: seq<Byte>, rest: seq<Byte>)
    requires |tag| == 16
    ensures var s, h, sz := a + b + tag + rest, |a|, |b|;
            && s[..h] == a && s[h..h + sz] == b && s[..h + sz] == a + b
            && s[h + sz..h + sz + 16] == tag && s[h + sz + 16..] == rest
  {
  }

  /** The bytes of a frame with whatever 16 bytes in the place of its tag. */
  function Tagged(c: Cipher, n: nat, body: seq<Byte>, tag: seq<Byte>): seq<Byte> {
    Le(n, 8) + Enc(c, n, 0, body) + tag
  }

  /** The tag covers the encrypted head and payload, however they were written. */
  lemma FrameShape(c: Cipher, n: nat, head: seq<Byte>, data: seq<Byte>, tag: seq<Byte>, rest: seq<Byte>)
    ensures var a, b, s := Enc(c, n, 0, head), Enc(c, n, |head|, data), Tagged(c, n, head + data, tag) + rest;
            && |s| >= 8 && s[..8] == Le(n, 8) && s[8..] == a + b + tag + rest && Enc(c, n, 0, head + data) == a + b
  {
    EncParts(c, n, 0, head, data);
  }

  lemma ParseSealed(c: Cipher, n: nat, head: seq<Byte>, data: seq<Byte>, tag: seq<Byte>, rest: seq<Byte>)
    requires CipherOk(c) && n < Pow256(8) && |head| == HeadLength(Has62(n)) && HeadSize(Has62(n), head) == |data|
    requires |tag| == 16
    ensures Parse(c, Tagged(c, n, head + data, tag) + rest)
            == if tag == c.tag(n, Enc(c, n, 0, head + data)) then Got(Rebuild(Has62(n), head, data), rest) else Bad
  {
    var a, b := Enc(c, n, 0, head), Enc(c, n, |head|, data);
    LeRoundTrip(n, 8);
    DecEnc(c, n, 0, head);
    DecEnc(c, n, |head|, data);
    Slices(a, b, tag, rest);
    FrameShape(c, n, head, data, tag, rest);
    hide Has62, Le, FromLe, Enc, Dec, HeadSize, Rebuild, Tagged;
  }

  /** The message of a frame is delivered if and only if the frame ends in the tag of its encrypted
      bytes; with any other 16 bytes there it is refused. */
  lemma ParseTagged(c: Cipher, n: nat, m: Message, tag: seq<Byte>, rest: seq<Byte>)
    requires CipherOk(c) && MessageOk(m) && n < Pow256(8) && (Has62(n) <==> m.Block?) && |tag| == 16
    ensures Parse(c, Le(n, 8) + Enc(c, n, 0, Head(m) + Payload(m)) + tag + rest)
            == if tag == c.tag(n, Enc(c, n, 0, Head(m) + Payload(m))) then Got(m, rest) else Bad
  {
    HeadReads(m);
    hide Parse, Enc;
    ParseSealed(c, n, Head(m), Payload(m), tag, rest);
  }

  /** A frame is read back as the message it was made of, whatever follows it. */
  lemma ParseFrame(c: Cipher, n: nat, m: Message, rest: seq<Byte>)
    requires CipherOk(c) && MessageOk(m) && n < Pow256(8) && (Has62(n) <==> m.Block?)
    ensures Parse(c, Frame(c, n, Head(m) + Payload(m)) + rest) == Got(m, rest)
  {
    hide Parse, Enc;
    ParseTagged(c, n, m, c.tag(n, Enc(c, n, 0, Head(m) + Payload(m))), rest);
  }

  lemma AfterCounter(s: seq<Byte>, i: nat, j: nat)
    requires i <= j && j + 8 <= |s|
    ensures s[8..][i..j] == s[i + 8..j + 8]
  {
  }

  /** Whatever the bytes, a message is delivered only from bytes that end in the tag of what stands
      between the counter and that tag. */
  lemma DeliveredIsTagged(c: Cipher, s: seq<Byte>)
    requires Parse(c, s).Got?
    ensures var used := |s| - |Parse(c, s).rest|;
            && 40 <= used && Parse(c, s).rest == s[used..]
            && s[used - 16..used] == c.tag(FromLe(s[..8]), s[8..used - 16])
  {
    var n, t := FromLe(s[..8]), s[8..];
    hide FromLe, Has62, Dec, HeadSize, Rebuild;
    var h := HeadLength(Has62(n));
    var u := h + HeadSize(Has62(n), Dec(c, n, 0, t[..h]));
    AfterCounter(s, 0, u);
    AfterCounter(s, u, u + 16);
    assert t[u + 16..] == s[u + 24..];
  }

  // ---- Whole connections ----

  /** All bytes of a connection that sends the messages in order, starting from counter `x`; the
      process ends at the first counter that fails the check. */
  function Stream(c: Cipher, x: nat, server: bool, ms: seq<Message>): seq<Byte>
    decreases |ms|
  {
    if ms == [] then []
    else
      var y := NextIv(x, server, ms[0].Block?);
      if Has61(y) then [] else Frame(c, y, Head(ms[0]) + Payload(ms[0])) + Stream(c, y, server, ms[1..])
  }

  /** How many of the messages get out before the counter is used up. */
  function Sendable(x: nat, server: bool, ms: seq<Message>): (k: nat)
    ensures k <= |ms|
    decreases |ms|
  {
    if ms == [] then 0
    else
      var y := NextIv(x, server, ms[0].Block?);
      if Has61(y) then 0 else 1 + Sendable(y, server, ms[1..])
  }

  /** Everything the receiver gets out of the bytes that arrive. */
  function ParseAll(c: Cipher, s: seq<Byte>): seq<Message>
    decreases |s|
  {
    var p := Parse(c, s);
    if p.Got? && |p.rest| < |s| then [p.m] + ParseAll(c, p.rest) else []
  }

  lemma SameSlice(s: seq<Byte>, k: nat, a: nat, b: nat)
    requires a <= b <= k <= |s|
    ensures s[..k][a..b] == s[a..b]
  {
  }

  lemma BodyPrefix(c: Cipher, n: nat, s: seq<Byte>, k: nat)
    requires ParseBody(c, n, s).Got? && k <= |s|
    ensures |ParseBody(c, n, s).rest| + 32 <= |s|
    ensures var p := ParseBody(c, n, s);
            var used := |s| - |p.rest|;
            ParseBody(c, n, s[..k]) == if k < used then Short else Got(p.m, p.rest[..k - used])
  {
    var h := HeadLength(Has62(n));
    hide Has62, Dec, HeadSize, Rebuild;
    if k >= h {
      SameSlice(s, k, 0, h);
      var sz := HeadSize(Has62(n), Dec(c, n, 0, s[..h]));
      if k >= h + sz + 16 {
        var u := h + sz;
        SameSlice(s, k, h, u);
        SameSlice(s, k, 0, u);
        SameSlice(s, k, u, u + 16);
        assert s[..k][u + 16..] == s[u + 16..][..k - (u + 16)];
      }
    }
  }

  /** Cutting the bytes off inside a frame yields no message; cutting later changes nothing. */
  lemma ParsePrefix(c: Cipher, s: seq<Byte>, k: nat)
    requires Parse(c, s).Got? && k <= |s|
    ensures |Parse(c, s).rest| + 40 <= |s|
    ensures var p := Parse(c, s);
            var used := |s| - |p.rest|;
            Parse(c, s[..k]) == if k < used then Short else Got(p.m, p.rest[..k - used])
  {
    var n := FromLe(s[..8]);
    hide FromLe, ParseBody;
    if k >= 8 {
      SameSlice(s, k, 0, 8);
      assert s[..k][8..] == s[8..][..k - 8];
      BodyPrefix(c, n, s[8..], k - 8);
    } else {
      BodyPrefix(c, n, s[8..], 0);
    }
  }

  lemma IvIsSmall(x: nat)
    requires IvOk(x)
    ensures x < Pow256(8)
  {
    assert Pow256(4) == 0x1_0000_0000;
    assert Pow256(8) == 256 * (256 * (256 * (256 * Pow256(4))));
  }

  /** The wire round trip. However many of the bytes of a connection have arrived, the receiver
      has got a prefix of the messages sent, with types, sizes, compression marks and payloads;
      once all bytes have arrived, it has got every message that was sent. */
  lemma {:induction false} WireRoundTrip(c: Cipher, x: nat, server: bool, ms: seq<Message>, k: nat)
    requires CipherOk(c) && IvOk(x) && (forall i | 0 <= i < |ms| :: MessageOk(ms[i]))
    requires k <= |Stream(c, x, server, ms)|
    ensures ParseAll(c, Stream(c, x, server, ms)[..k]) <= ms
    ensures k == |Stream(c, x, server, ms)| ==>
              ParseAll(c, Stream(c, x, server, ms)[..k]) == ms[..Sendable(x, server, ms)]
    decreases |ms|
  {
    hide NextIv, Has62, Has61, MessageOk, CipherOk, Frame, Parse, ParseAll, Head, Payload, Low61, IvOk;
    if ms == [] {
      NothingArrives(c);
      return;
    }
    var y, m := NextIv(x, server, ms[0].Block?), ms[0];
    if Has61(y) {
      NothingArrives(c);
    } else {
      IvAdvances(x, server, m.Block?);
      IvIsSmall(y);
      var rest := Stream(c, y, server, ms[1..]);
      ParseFrame(c, y, m, rest);
      var s := Stream(c, x, server, ms);
      var used := |s| - |rest|;
      FirstArrives(c, s, m, rest, k);
      if k >= used {
        WireRoundTrip(c, y, server, ms[1..], k - used);
        PrefixCons(m, ParseAll(c, rest[..k - used]), ms);
      }
    }
  }

  lemma NothingArrives(c: Cipher)
    ensures ParseAll(c, []) == []
  {
  }

  /** What arrives of a connection is nothing, or its first message and what arrives of the rest. */
  lemma FirstArrives(c: Cipher, s: seq<Byte>, m: Message, rest: seq<Byte>, k: nat)
    requires Parse(c, s) == Got(m, rest) && k <= |s|
    ensures |rest| < |s|
    ensures ParseAll(c, s[..k]) == if k < |s| - |rest| then [] else [m] + ParseAll(c, rest[..k - (|s| - |rest|)])
  {
    hide Parse;
    ParsePrefix(c, s, k);
  }

  lemma PrefixCons(m: Message, t: seq<Message>, ms: seq<Message>)
    requires ms != [] && m == ms[0] && t <= ms[1..]
    ensures [m] + t <= ms
    ensures forall j | 0 <= j <= |ms[1..]| && t == ms[1..][..j] :: [m] + t == ms[..j + 1]
  {
  }

  // ---- Compression ----

  /** A block goes out compressed only if that makes it shorter and not empty. */
  function Pack(compress: seq<Byte> -> seq<Byte>, data: seq<Byte>): (bool, seq<Byte>) {
    var z := compress(data);
    if 0 < |z| < |data| then (true, z) else (false, data)
  }

  /** The receiver gets the original block back, and never more bytes on the wire than in it. */
  lemma PackUnpack(compress: seq<Byte> -> seq<Byte>, decompress: seq<Byte> -> seq<Byte>, data: seq<Byte>)
    requires forall d :: decompress(compress(d)) == d
    ensures var (packed, z) := Pack(compress, data);
            && (if packed then decompress(z) else z) == data && |z| <= |data| && (data != [] ==> z != [])
            && (packed <==> 0 < |compress(data)| < |data|)
  {
    assert decompress(compress(data)) == data;
  }
}
