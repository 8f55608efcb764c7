/** Reassembly of one stream, as a function of its state and the next chunk. Both peers' in-place
    implementations are proved against this module. */
module StreamSpec {
  import opened SlotTypes

  const MAX_STREAM_CHUNKS: nat := 0x10_0000
  const MAX_STREAM_SIZE: nat := 0x4000_0000
  const MAX_CONCURRENT_STREAMS: nat := 1024
  const MAX_PARKED_CHUNKS: nat := MAX_STREAM_CHUNKS / MAX_CONCURRENT_STREAMS

  /** A chunk message past its framing check: index, absolute destination, payload. */
  datatype Chunk = Chunk(index: nat, dst: nat, payload: seq<byte>)

  /** A chunk already written but not yet accounted in order. */
  datatype Placed = Placed(dst: nat, size: nat)

  /** A live stream context. */
  datatype Ctx = Ctx(totalSize: nat, totalChunks: nat, tag: int, buf: seq<byte>,
                     next: nat, offset: int, ooo: map<nat, Placed>, oooBytes: int)

  /** What a chunk does to its stream. `Reject` answers with an error and keeps the stream, `Drop`
      answers with an error and retires it, `Deliver` acknowledges, hands out the buffer and
      retires it. */
  datatype Verdict = Ack | Reject | Drop | Deliver(data: seq<byte>)

  predicate Retires(v: Verdict) { v.Drop? || v.Deliver? }

  /** The reply both peers send: an acknowledgement, or a system error. */
  predicate Acknowledged(v: Verdict) { v.Ack? || v.Deliver? }

  function NewCtx(totalSize: nat, totalChunks: nat, tag: int): Ctx {
    Ctx(totalSize, totalChunks, tag, seq(totalSize, _ => 0), 0, 0, map[], 0)
  }

  predicate Fits(c: Ctx, n: nat) {
    c.offset + c.oooBytes + n <= c.totalSize
  }

  /** By subtraction: the destination is the peer's and a sum could wrap. */
  predicate InBounds(c: Ctx, dst: nat, n: nat) {
    dst <= c.totalSize && n <= c.totalSize - dst
  }

  function Overlay(buf: seq<byte>, dst: nat, data: seq<byte>): (r: seq<byte>)
    requires dst + |data| <= |buf|
    ensures |r| == |buf|
    ensures forall p :: 0 <= p < |buf| ==> r[p] == if dst <= p < dst + |data| then data[p - dst] else buf[p]
  {
    buf[..dst] + data + buf[dst + |data|..]
  }

  /** Accounts the recorded chunks the cursor has caught up to; false at a misplaced one. */
  function Drain(c: Ctx): (r: (Ctx, bool))
    decreases |c.ooo|
  {
    if c.next !in c.ooo then (c, true)
    else
      var p := c.ooo[c.next];
      var d := c.(ooo := c.ooo - {c.next}, oooBytes := c.oooBytes - p.size);
      if p.dst != c.offset then (d, false)
      else Drain(d.(offset := c.offset + p.size, next := c.next + 1))
  }

  /** One turn of the drain loop. */
  lemma DrainTurn(c: Ctx)
    ensures c.next !in c.ooo ==> Drain(c) == (c, true)
    ensures c.next in c.ooo ==>
      var p := c.ooo[c.next];
      var d := c.(ooo := c.ooo - {c.next}, oooBytes := c.oooBytes - p.size);
      Drain(c) == if p.dst != c.offset then (d, false) else Drain(d.(offset := c.offset + p.size, next := c.next + 1))
  {
  }

  /** The completion test after a chunk was accounted or recorded. */
  function Complete(c: Ctx): (Ctx, Verdict) {
    if c.next != c.totalChunks then (c, Ack)
    else if c.offset == c.totalSize then (c, Deliver(c.buf))
    else (c, Drop)
  }

  /** Everything a chunk does to a live stream, in the order the guards fire. */
  function Consume(c: Ctx, k: Chunk): (r: (Ctx, Verdict))
    requires |c.buf| == c.totalSize
  {
    if k.index >= c.totalChunks then (c, Reject)
    else if k.index < c.next || k.index in c.ooo then (c, Ack)
    else if !Fits(c, |k.payload|) || !InBounds(c, k.dst, |k.payload|) then (c, Drop)
    else
      var w := c.(buf := Overlay(c.buf, k.dst, k.payload));
      if k.index == c.next then
        if k.dst != c.offset then (w, Drop)
        else
          var d := Drain(w.(offset := c.offset + |k.payload|, next := c.next + 1));
          if d.1 then Complete(d.0) else (d.0, Drop)
      else if |c.ooo| >= MAX_PARKED_CHUNKS then (w, Drop)
      else
        Complete(w.(ooo := c.ooo[k.index := Placed(k.dst, |k.payload|)], oooBytes := c.oooBytes + |k.payload|))
  }

  /** The state of a stream after a sequence of its chunks. */
  datatype Outcome = Live(ctx: Ctx) | Dropped | Delivered(data: seq<byte>)

  function Feed(o: Outcome, k: Chunk): Outcome
    requires o.Live? ==> |o.ctx.buf| == o.ctx.totalSize
  {
    if !o.Live? then o
    else
      var (c, v) := Consume(o.ctx, k);
      match v
      case Ack | Reject => Live(c)
      case Drop => Dropped
      case Deliver(data) => Delivered(data)
  }

  lemma ConsumeKeepsShape(c: Ctx, k: Chunk)
    requires |c.buf| == c.totalSize
    ensures var d := Consume(c, k).0;
      |d.buf| == d.totalSize && d.totalSize == c.totalSize && d.totalChunks == c.totalChunks && d.tag == c.tag
  {
    if k.index < c.totalChunks && Fits(c, |k.payload|) && InBounds(c, k.dst, |k.payload|) {
      var w := c.(buf := Overlay(c.buf, k.dst, k.payload));
      DrainKeepsShape(w.(offset := c.offset + |k.payload|, next := c.next + 1));
    }
  }

  lemma {:induction false} DrainKeepsShape(c: Ctx)
    ensures var d := Drain(c).0;
      d.buf == c.buf && d.totalSize == c.totalSize && d.totalChunks == c.totalChunks && d.tag == c.tag
    decreases |c.ooo|
  {
    if c.next in c.ooo && c.ooo[c.next].dst == c.offset {
      var p := c.ooo[c.next];
      DrainKeepsShape(c.(ooo := c.ooo - {c.next}, oooBytes := c.oooBytes - p.size, offset := c.offset + p.size, next := c.next + 1));
    }
  }

  function FeedAll(c: Ctx, msgs: seq<Chunk>): (o: Outcome)
    requires |c.buf| == c.totalSize
    ensures o.Live? ==> |o.ctx.buf| == o.ctx.totalSize == c.totalSize && o.ctx.totalChunks == c.totalChunks && o.ctx.tag == c.tag
  {
    if msgs == [] then Live(c)
    else
      var o := FeedAll(c, msgs[..|msgs| - 1]);
      if o.Live? then ConsumeKeepsShape(o.ctx, msgs[|msgs| - 1]); Feed(o, msgs[|msgs| - 1]) else o
  }

  lemma FeedOne(c: Ctx, ks: seq<Chunk>, k: Chunk)
    requires |c.buf| == c.totalSize
    ensures FeedAll(c, ks + [k]) == Feed(FeedAll(c, ks), k)
  {
    assert (ks + [k])[..|ks|] == ks;
  }
}
