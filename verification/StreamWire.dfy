/** The 24-byte little-endian headers of STREAM_START and STREAM_CHUNK messages: what the senders
    write into a slot buffer, what both reassemblers parse out of it, and that each undoes the
    other. */
module StreamWire {
  import opened Arithmetic
  import opened SlotTypes
  import opened StreamSpec

  const HEADER_SIZE: nat := 24

  datatype Option<T> = None | Some(value: T)

  /** A STREAM_START: the stream, what it advertises, and its routing tag. */
  datatype StartMsg = StartMsg(id: nat, totalSize: nat, totalChunks: nat, tag: nat)

  /** A STREAM_CHUNK past its framing check. */
  datatype ChunkMsg = ChunkMsg(id: nat, chunk: Chunk)

  // ---- Little-endian fields ----

  /** The n low bytes of v, least significant first. */
  function Le(v: nat, n: nat): (b: seq<byte>)
    ensures |b| == n
    decreases n
  {
    if n == 0 then [] else [v % 256] + Le(v / 256, n - 1)
  }

  function Unle(b: seq<byte>): nat {
    if b == [] then 0 else b[0] + 256 * Unle(b[1..])
  }

  /** The first value that does not fit n bytes. */
  function Bound(n: nat): nat {
    if n == 0 then 1 else 256 * Bound(n - 1)
  }

  lemma {:induction false} UnleLe(v: nat, n: nat)
    requires v < Bound(n)
    ensures Unle(Le(v, n)) == v
    decreases n
  {
    if n > 0 {
      UnleLe(v / 256, n - 1);
      assert Le(v, n)[1..] == Le(v / 256, n - 1);
    }
  }

  lemma {:induction false} LeUnle(b: seq<byte>)
    ensures Unle(b) < Bound(|b|) && Le(Unle(b), |b|) == b
  {
    if b != [] {
      LeUnle(b[1..]);
      DivUnique(Unle(b), Unle(b[1..]), b[0], 256);
      assert b == [b[0]] + b[1..];
    }
  }

  lemma Widths()
    ensures Bound(4) == 0x1_0000_0000 && Bound(8) == 0x1_0000_0000 * 0x1_0000_0000
  {
    assert Bound(2) == 0x1_0000 && Bound(4) == 256 * (256 * Bound(2));
    assert Bound(6) == 256 * (256 * Bound(4)) && Bound(8) == 256 * (256 * Bound(6));
  }

  // ---- Messages ----

  ghost predicate Sendable32(v: nat) { v < Bound(4) }

  ghost predicate Sendable64(v: nat) { v < Bound(8) }

  function EncodeStart(h: StartMsg): (b: seq<byte>)
    ensures |b| == HEADER_SIZE
  {
    Le(h.id, 8) + Le(h.totalSize, 8) + Le(h.totalChunks, 4) + Le(h.tag, 4)
  }

  /** The last four header bytes of a chunk are padding: written as zero, never read. */
  function EncodeChunk(m: ChunkMsg): (b: seq<byte>)
    ensures |b| == HEADER_SIZE + |m.chunk.payload|
  {
    ChunkHead(m.id, m.chunk.index, |m.chunk.payload|, m.chunk.dst) + m.chunk.payload
  }

  function ChunkHead(id: nat, index: nat, size: nat, dst: nat): (b: seq<byte>)
    ensures |b| == HEADER_SIZE
  {
    Le(id, 8) + Le(index, 4) + Le(size, 4) + Le(dst, 4) + Le(0, 4)
  }

  function DecodeStart(req: seq<byte>): Option<StartMsg> {
    if |req| < HEADER_SIZE then None
    else Some(StartMsg(Unle(req[0..8]), Unle(req[8..16]), Unle(req[16..20]), Unle(req[20..24])))
  }

  /** None when the request is shorter than its header, or than the payload the header declares.
      Bytes past the payload are ignored. */
  function DecodeChunk(req: seq<byte>): Option<ChunkMsg> {
    if |req| < HEADER_SIZE then None
    else
      var size := Unle(req[12..16]);
      if |req| < HEADER_SIZE + size then None
      else Some(ChunkMsg(Unle(req[0..8]), Chunk(Unle(req[8..12]), Unle(req[16..20]), req[24..24 + size])))
  }

  /** Whatever follows the header in the buffer, a start decodes to the message that was sent. */
  lemma StartRoundTrip(h: StartMsg, rest: seq<byte>)
    requires Sendable64(h.id) && Sendable64(h.totalSize) && Sendable32(h.totalChunks) && Sendable32(h.tag)
    ensures DecodeStart(EncodeStart(h) + rest) == Some(h)
  {
    hide Le, Unle;
    var req := EncodeStart(h) + rest;
    assert req[0..8] == Le(h.id, 8) && req[8..16] == Le(h.totalSize, 8);
    assert req[16..20] == Le(h.totalChunks, 4) && req[20..24] == Le(h.tag, 4);
    UnleLe(h.id, 8); UnleLe(h.totalSize, 8); UnleLe(h.totalChunks, 4); UnleLe(h.tag, 4);
  }

  lemma ChunkRoundTrip(m: ChunkMsg, rest: seq<byte>)
    requires Sendable64(m.id) && Sendable32(m.chunk.index) && Sendable32(m.chunk.dst) && Sendable32(|m.chunk.payload|)
    ensures DecodeChunk(EncodeChunk(m) + rest) == Some(m)
  {
    hide Le, Unle;
    var k := m.chunk;
    var req := EncodeChunk(m) + rest;
    assert req[0..8] == Le(m.id, 8) && req[8..12] == Le(k.index, 4);
    assert req[12..16] == Le(|k.payload|, 4) && req[16..20] == Le(k.dst, 4);
    UnleLe(m.id, 8); UnleLe(k.index, 4); UnleLe(|k.payload|, 4); UnleLe(k.dst, 4);
    assert req[24..24 + |k.payload|] == k.payload;
  }

  /** Every 24 bytes are some start, so distinct headers are distinct on the wire and back. */
  lemma StartInverse(req: seq<byte>)
    requires |req| >= HEADER_SIZE
    ensures EncodeStart(DecodeStart(req).value) == req[..HEADER_SIZE]
  {
    hide Le, Unle;
    LeUnle(req[0..8]); LeUnle(req[8..16]); LeUnle(req[16..20]); LeUnle(req[20..24]);
  }

  lemma ZeroPadding()
    ensures Le(0, 4) == [0, 0, 0, 0]
  {
    assert Le(0, 1) == [0] + Le(0, 0) && Le(0, 2) == [0] + Le(0, 1);
    assert Le(0, 3) == [0] + Le(0, 2) && Le(0, 4) == [0] + Le(0, 3);
  }

  /** A chunk is determined by its bytes up to the padding, which a re-encoding clears. */
  lemma ChunkInverse(req: seq<byte>)
    requires DecodeChunk(req).Some?
    ensures var m := DecodeChunk(req).value;
      EncodeChunk(m) == req[..20] + [0, 0, 0, 0] + req[24..HEADER_SIZE + |m.chunk.payload|]
  {
    hide Le, Unle;
    ZeroPadding();
    LeUnle(req[0..8]); LeUnle(req[8..12]); LeUnle(req[12..16]); LeUnle(req[16..20]);
  }

  // ---- The bytes ----

  /** Byte i of a little-endian value. */
  function Digit(v: nat, i: nat): nat
    requires Bound(i) > 0
  {
    (v / Bound(i)) % 256
  }

  lemma {:induction false} BoundIsPositive(n: nat)
    ensures Bound(n) > 0
  {
    if n > 0 { BoundIsPositive(n - 1); }
  }

  lemma {:induction false} LeDigit(v: nat, n: nat, i: nat)
    requires i < n
    ensures Bound(i) > 0 && Le(v, n)[i] == Digit(v, i)
    decreases n
  {
    BoundIsPositive(i);
    if i > 0 {
      LeDigit(v / 256, n - 1, i - 1);
      DivDiv(v, 256, Bound(i - 1));
    }
  }

  /** Every field of a start sits little-endian at its frozen offset: the id at 0, the size at 8, the
      chunk count at 16, the tag at 20. */
  lemma StartLayout(h: StartMsg, i: nat)
    requires i < 8
    ensures var b := EncodeStart(h);
      && Bound(i) > 0 && b[i] == Digit(h.id, i) && b[8 + i] == Digit(h.totalSize, i)
      && (i < 4 ==> b[16 + i] == Digit(h.totalChunks, i) && b[20 + i] == Digit(h.tag, i))
  {
    hide Le, Digit;
    LeDigit(h.id, 8, i);
    LeDigit(h.totalSize, 8, i);
    if i < 4 {
      LeDigit(h.totalChunks, 4, i);
      LeDigit(h.tag, 4, i);
    }
  }

  /** A chunk's id is at 0, its index at 8, its payload size at 12, its destination at 16, four zero
      bytes at 20, and the payload from 24 on. */
  lemma ChunkLayout(m: ChunkMsg, i: nat)
    requires i < 8
    ensures var b, k := EncodeChunk(m), m.chunk;
      && Bound(i) > 0 && b[i] == Digit(m.id, i) && b[24..] == k.payload
      && (i < 4 ==> b[8 + i] == Digit(k.index, i) && b[12 + i] == Digit(|k.payload|, i) && b[16 + i] == Digit(k.dst, i) && b[20 + i] == 0)
  {
    hide Le, Digit;
    LeDigit(m.id, 8, i);
    ZeroPadding();
    if i < 4 {
      LeDigit(m.chunk.index, 4, i);
      LeDigit(|m.chunk.payload|, 4, i);
      LeDigit(m.chunk.dst, 4, i);
    }
  }

  /** A message cut short anywhere does not decode. */
  lemma TruncatedIsMalformed(h: StartMsg, m: ChunkMsg, n: nat)
    requires Sendable32(|m.chunk.payload|)
    ensures n < HEADER_SIZE ==> DecodeStart(EncodeStart(h)[..n]).None?
    ensures n < |EncodeChunk(m)| ==> DecodeChunk(EncodeChunk(m)[..n]).None?
  {
    hide Le, Unle;
    if HEADER_SIZE <= n < |EncodeChunk(m)| {
      var whole, req := EncodeChunk(m), EncodeChunk(m)[..n];
      assert whole[12..16] == Le(|m.chunk.payload|, 4);
      assert req[12..16] == whole[12..16];
      UnleLe(|m.chunk.payload|, 4);
    }
  }

  // ---- Writing into a slot buffer ----

  /** `b` laid over `was` at `at`. */
  function Laid(was: seq<byte>, at: nat, b: seq<byte>): seq<byte>
    requires at + |b| <= |was|
  {
    was[..at] + b + was[at + |b|..]
  }

  method PutLe(buf: array<byte>, at: nat, v: nat, n: nat)
    requires at + n <= buf.Length
    modifies buf
    ensures buf[..] == Laid(old(buf[..]), at, Le(v, n))
  {
    var i, rest := 0, v;
    while i < n
      invariant 0 <= i <= n && Le(v, n)[i..] == Le(rest, n - i)
      invariant forall p :: 0 <= p < buf.Length ==>
        buf[p] == if at <= p < at + i then Le(v, n)[p - at] else old(buf[p])
    {
      assert Le(v, n)[i] == Le(v, n)[i..][0] == rest % 256;
      assert Le(v, n)[i + 1..] == Le(v, n)[i..][1..];
      buf[at + i] := rest % 256;
      i, rest := i + 1, rest / 256;
    }
  }

  lemma LaidTwice(was: seq<byte>, at: nat, a: seq<byte>, b: seq<byte>)
    requires at + |a| + |b| <= |was|
    ensures Laid(Laid(was, at, a), at + |a|, b) == Laid(was, at, a + b)
  {
  }

  method PutStreamHeader(buf: array<byte>, h: StartMsg)
    requires buf.Length >= HEADER_SIZE
    modifies buf
    ensures buf[..] == EncodeStart(h) + old(buf[..])[HEADER_SIZE..]
  {
    hide Le;
    ghost var was := buf[..];
    ghost var a, b, c, d := Le(h.id, 8), Le(h.totalSize, 8), Le(h.totalChunks, 4), Le(h.tag, 4);
    PutLe(buf, 0, h.id, 8);
    PutLe(buf, 8, h.totalSize, 8);
    PutLe(buf, 16, h.totalChunks, 4);
    PutLe(buf, 20, h.tag, 4);
    LaidTwice(was, 0, a, b);
    LaidTwice(was, 0, a + b, c);
    LaidTwice(was, 0, a + b + c, d);
  }

  method PutChunkHeader(buf: array<byte>, id: nat, index: nat, size: nat, dst: nat)
    requires buf.Length >= HEADER_SIZE
    modifies buf
    ensures buf[..] == ChunkHead(id, index, size, dst) + old(buf[..])[HEADER_SIZE..]
  {
    hide Le;
    ghost var was := buf[..];
    ghost var a, b, c, d, e := Le(id, 8), Le(index, 4), Le(size, 4), Le(dst, 4), Le(0, 4);
    PutLe(buf, 0, id, 8);
    PutLe(buf, 8, index, 4);
    PutLe(buf, 12, size, 4);
    PutLe(buf, 16, dst, 4);
    PutLe(buf, 20, 0, 4);
    LaidTwice(was, 0, a, b);
    LaidTwice(was, 0, a + b, c);
    LaidTwice(was, 0, a + b + c, d);
    LaidTwice(was, 0, a + b + c + d, e);
  }
}
