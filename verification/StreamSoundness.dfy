/** A delivered stream is never garbled. Chunks land at destinations the peer chose, so bytes may be
    overwritten along the way; the log of first arrivals shows that a stream which completes was
    tiled by them exactly. */
module StreamSoundness {
  import opened SlotTypes
  import opened StreamSpec

  /** The first chunk to arrive for each index below n. */
  function FirstArrivals(msgs: seq<Chunk>, n: nat): (log: map<nat, Chunk>)
    ensures forall i: nat :: i in log ==> i < n && log[i].index == i
  {
    if msgs == [] then map[]
    else
      var log, k := FirstArrivals(msgs[..|msgs| - 1], n), msgs[|msgs| - 1];
      if k.index >= n || k.index in log then log else log[k.index := k]
  }

  ghost predicate HasAll(log: map<nat, Chunk>, n: nat) { forall i :: 0 <= i < n ==> i in log }

  function PayloadOf(log: map<nat, Chunk>, i: nat): seq<byte> {
    if i in log then log[i].payload else []
  }

  /** Total size of the chunks before index i. */
  function Before(log: map<nat, Chunk>, i: nat): nat {
    if i == 0 then 0 else Before(log, i - 1) + |PayloadOf(log, i - 1)|
  }

  /** The payloads of indices below i, in index order. */
  function Concat(log: map<nat, Chunk>, i: nat): (s: seq<byte>)
    ensures |s| == Before(log, i)
  {
    if i == 0 then [] else Concat(log, i - 1) + PayloadOf(log, i - 1)
  }

  /** Bytes recorded under indices below n. */
  function Parked(ooo: map<nat, Placed>, n: nat): nat {
    if n == 0 then 0 else Parked(ooo, n - 1) + if n - 1 in ooo then ooo[n - 1].size else 0
  }

  /** Chunk i sits where the chunks before it end. */
  ghost predicate AtRunningOffset(log: map<nat, Chunk>, i: nat) { i in log && log[i].dst == Before(log, i) }

  ghost predicate Covers(k: Chunk, p: int) { k.dst <= p < k.dst + |k.payload| }

  ghost predicate CoveredOnlyBy(log: map<nat, Chunk>, i: nat, p: int) {
    i in log && Covers(log[i], p) && forall j: nat :: j in log && Covers(log[j], p) ==> j == i
  }

  /** A byte that exactly one accepted chunk covers is that chunk's byte. */
  ghost predicate Faithful(buf: seq<byte>, log: map<nat, Chunk>) {
    forall i: nat, p :: 0 <= p < |buf| && CoveredOnlyBy(log, i, p) ==> buf[p] == log[i].payload[p - log[i].dst]
  }

  /** The accounting between and during drains: the log is what was consumed plus what is recorded,
      consumed chunks sit at their running offset, and both byte counters are sums. */
  ghost predicate Accounted(c: Ctx, log: map<nat, Chunk>) {
    && |c.buf| == c.totalSize && c.next <= c.totalChunks
    && (forall i: nat :: i in log <==> i < c.next || i in c.ooo)
    && (forall i: nat :: i in c.ooo ==> c.next <= i < c.totalChunks)
    && (forall i: nat :: i in c.ooo ==> c.ooo[i] == Placed(log[i].dst, |log[i].payload|))
    && c.offset == Before(log, c.next)
    && (forall i :: 0 <= i < c.next ==> AtRunningOffset(log, i))
    && c.oooBytes == Parked(c.ooo, c.totalChunks)
    && c.offset + c.oooBytes <= c.totalSize
    && (forall i: nat :: i in log ==> log[i].dst + |log[i].payload| <= c.totalSize)
  }

  /** What every reachable context satisfies. */
  ghost predicate Inv(c: Ctx, log: map<nat, Chunk>) {
    Accounted(c, log) && Faithful(c.buf, log) && c.next !in c.ooo && c.next < c.totalChunks
  }

  // ---- Sums ----

  lemma {:induction false} ParkedAdd(ooo: map<nat, Placed>, i: nat, p: Placed, n: nat)
    requires i !in ooo
    ensures Parked(ooo[i := p], n) == Parked(ooo, n) + if i < n then p.size else 0
  {
    if n > 0 { ParkedAdd(ooo, i, p, n - 1); }
  }

  lemma {:induction false} ParkedRemove(ooo: map<nat, Placed>, i: nat, n: nat)
    requires i in ooo
    ensures Parked(ooo - {i}, n) == Parked(ooo, n) - if i < n then ooo[i].size else 0
  {
    if n > 0 { ParkedRemove(ooo, i, n - 1); }
  }

  lemma {:induction false} BeforeFrame(log: map<nat, Chunk>, i: nat, k: Chunk, n: nat)
    requires n <= i
    ensures Before(log[i := k], n) == Before(log, n)
  {
    if n > 0 { BeforeFrame(log, i, k, n - 1); }
  }

  lemma RunningFrame(log: map<nat, Chunk>, i: nat, k: Chunk, n: nat, more: map<nat, Chunk>)
    requires n <= i && more == log[i := k] && forall j :: 0 <= j < n ==> AtRunningOffset(log, j)
    ensures Before(more, n) == Before(log, n)
    ensures forall j :: 0 <= j < n ==> AtRunningOffset(more, j)
  {
    BeforeFrame(log, i, k, n);
    forall j | 0 <= j < n ensures AtRunningOffset(more, j) {
      assert AtRunningOffset(log, j);
      BeforeFrame(log, i, k, j);
    }
  }

  lemma {:induction false} BeforeMonotone(log: map<nat, Chunk>, i: nat, n: nat)
    requires i <= n
    ensures Before(log, i) <= Before(log, n)
  {
    if i < n { BeforeMonotone(log, i, n - 1); }
  }

  // ---- The drain ----

  /** The state after accounting the recorded chunk at the cursor. */
  function AccountNext(c: Ctx): Ctx
    requires c.next in c.ooo
  {
    var p := c.ooo[c.next];
    c.(ooo := c.ooo - {c.next}, oooBytes := c.oooBytes - p.size, offset := c.offset + p.size, next := c.next + 1)
  }

  lemma AccountNextInv(c: Ctx, log: map<nat, Chunk>)
    requires Accounted(c, log) && c.next in c.ooo && c.ooo[c.next].dst == c.offset
    ensures Accounted(AccountNext(c), log)
  {
    ParkedRemove(c.ooo, c.next, c.totalChunks);
  }

  lemma {:induction false} DrainInv(c: Ctx, log: map<nat, Chunk>)
    requires Accounted(c, log)
    ensures var (d, ok) := Drain(c); ok ==> Accounted(d, log) && d.next !in d.ooo && d.buf == c.buf
    decreases |c.ooo|
  {
    if c.next in c.ooo && c.ooo[c.next].dst == c.offset {
      AccountNextInv(c, log);
      hide Accounted;
      DrainInv(AccountNext(c), log);
    }
  }

  // ---- One chunk ----

  /** The log after one more chunk. */
  function Extended(log: map<nat, Chunk>, k: Chunk, n: nat): map<nat, Chunk> {
    if k.index >= n || k.index in log then log else log[k.index := k]
  }

  /** Writing a new chunk keeps every singly covered byte faithful. */
  lemma OverlayFaithful(c: Ctx, log: map<nat, Chunk>, k: Chunk)
    requires Faithful(c.buf, log) && k.index !in log && k.dst + |k.payload| <= |c.buf|
    ensures Faithful(Overlay(c.buf, k.dst, k.payload), log[k.index := k])
  {
    var r, log' := Overlay(c.buf, k.dst, k.payload), log[k.index := k];
    forall i: nat, p | 0 <= p < |r| && CoveredOnlyBy(log', i, p) ensures r[p] == log'[i].payload[p - log'[i].dst] {
      if i != k.index {
        assert log'[k.index] == k && !Covers(k, p);
        assert CoveredOnlyBy(log, i, p) by {
          forall j: nat | j in log && Covers(log[j], p) ensures j == i { assert log'[j] == log[j]; }
        }
      }
    }
  }

  /** A chunk at the cursor, at its running offset, accounted before the drain. */
  lemma InOrderInv(c: Ctx, log: map<nat, Chunk>, k: Chunk)
    requires Inv(c, log) && k.index == c.next && k.dst == c.offset && Fits(c, |k.payload|) && InBounds(c, k.dst, |k.payload|)
    ensures Accounted(c.(buf := Overlay(c.buf, k.dst, k.payload), offset := c.offset + |k.payload|, next := c.next + 1), log[k.index := k])
  {
    RunningFrame(log, k.index, k, c.next, log[k.index := k]);
    hide Faithful;
  }

  /** A chunk ahead of the cursor, recorded. */
  lemma AheadInv(c: Ctx, log: map<nat, Chunk>, k: Chunk)
    requires Inv(c, log) && c.next < k.index < c.totalChunks && k.index !in c.ooo
    requires Fits(c, |k.payload|) && InBounds(c, k.dst, |k.payload|)
    ensures Accounted(c.(buf := Overlay(c.buf, k.dst, k.payload), ooo := c.ooo[k.index := Placed(k.dst, |k.payload|)],
                         oooBytes := c.oooBytes + |k.payload|), log[k.index := k])
  {
    RunningFrame(log, k.index, k, c.next, log[k.index := k]);
    ParkedAdd(c.ooo, k.index, Placed(k.dst, |k.payload|), c.totalChunks);
    hide Faithful;
  }

  // ---- Completion ----

  /** Chunks at their running offsets cover disjoint ranges. */
  lemma Disjoint(log: map<nat, Chunk>, i: nat, n: nat, p: int)
    requires i < n && HasAll(log, n) && (forall j :: 0 <= j < n ==> AtRunningOffset(log, j))
    requires (forall j: nat :: j in log ==> j < n) && Covers(log[i], p)
    ensures CoveredOnlyBy(log, i, p)
  {
    assert AtRunningOffset(log, i);
    forall j: nat | j in log && Covers(log[j], p) ensures j == i {
      assert AtRunningOffset(log, j);
      if j < i { BeforeMonotone(log, j + 1, i); } else if i < j { BeforeMonotone(log, i + 1, j); }
    }
  }

  /** So the buffer is their concatenation. */
  lemma {:induction false} Tiled(buf: seq<byte>, log: map<nat, Chunk>, i: nat, n: nat)
    requires i <= n && HasAll(log, n) && (forall j :: 0 <= j < n ==> AtRunningOffset(log, j))
    requires (forall j: nat :: j in log ==> j < n) && Faithful(buf, log) && Before(log, n) == |buf|
    ensures Before(log, i) <= |buf| && buf[..Before(log, i)] == Concat(log, i)
  {
    BeforeMonotone(log, i, n);
    if i > 0 {
      Tiled(buf, log, i - 1, n);
      var lo, hi := Before(log, i - 1), Before(log, i);
      assert AtRunningOffset(log, i - 1);
      forall p | lo <= p < hi ensures buf[p] == log[i - 1].payload[p - lo] { Disjoint(log, i - 1, n, p); }
      assert buf[..hi] == buf[..lo] + buf[lo..hi];
      assert buf[lo..hi] == log[i - 1].payload;
    }
  }

  lemma CompleteInv(c: Ctx, log: map<nat, Chunk>)
    requires Accounted(c, log) && Faithful(c.buf, log) && c.next !in c.ooo
    ensures var (d, v) := Complete(c);
      && (v.Ack? ==> Inv(d, log)) && !v.Reject?
      && (v.Deliver? ==> |v.data| == c.totalSize && HasAll(log, c.totalChunks) && v.data == Concat(log, c.totalChunks))
  {
    if c.next == c.totalChunks && c.offset == c.totalSize {
      Tiled(c.buf, log, c.totalChunks, c.totalChunks);
    }
  }

  /** What a verdict promises about the extended log. */
  ghost predicate Justified(c: Ctx, log: map<nat, Chunk>, d: Ctx, v: Verdict) {
    && (v.Ack? || v.Reject? ==> Inv(d, log))
    && (v.Deliver? ==> |v.data| == c.totalSize && HasAll(log, c.totalChunks) && v.data == Concat(log, c.totalChunks))
  }

  lemma ConsumeInOrder(c: Ctx, log: map<nat, Chunk>, k: Chunk)
    requires Inv(c, log) && k.index == c.next && k.dst == c.offset
    requires Fits(c, |k.payload|) && InBounds(c, k.dst, |k.payload|)
    ensures Justified(c, log[k.index := k], Consume(c, k).0, Consume(c, k).1)
  {
    var log' := log[k.index := k];
    var d := c.(buf := Overlay(c.buf, k.dst, k.payload), offset := c.offset + |k.payload|, next := c.next + 1);
    assert Faithful(d.buf, log') by { OverlayFaithful(c, log, k); }
    InOrderInv(c, log, k);
    hide Accounted, Faithful, HasAll, Concat, Overlay;
    DrainInv(d, log');
    DrainKeepsShape(d);
    if Drain(d).1 { CompleteInv(Drain(d).0, log'); }
  }

  lemma ConsumeAhead(c: Ctx, log: map<nat, Chunk>, k: Chunk)
    requires Inv(c, log) && c.next < k.index < c.totalChunks && k.index !in c.ooo && |c.ooo| < MAX_PARKED_CHUNKS
    requires Fits(c, |k.payload|) && InBounds(c, k.dst, |k.payload|)
    ensures Justified(c, log[k.index := k], Consume(c, k).0, Consume(c, k).1)
  {
    assert Faithful(Overlay(c.buf, k.dst, k.payload), log[k.index := k]) by { OverlayFaithful(c, log, k); }
    AheadInv(c, log, k);
    hide Accounted, Faithful, HasAll, Concat, Overlay;
  }

  /** What one chunk does: a stream that stays live keeps the invariant for the extended log, and a
      stream that is delivered is delivered as the concatenation of that log. */
  lemma ConsumeInv(c: Ctx, log: map<nat, Chunk>, k: Chunk)
    requires Inv(c, log)
    ensures Justified(c, Extended(log, k, c.totalChunks), Consume(c, k).0, Consume(c, k).1)
  {
    if c.next <= k.index < c.totalChunks && k.index !in c.ooo && Fits(c, |k.payload|) && InBounds(c, k.dst, |k.payload|) {
      assert k.index !in log;
      hide Accounted, Faithful, HasAll, Concat;
      if k.index == c.next && k.dst == c.offset {
        ConsumeInOrder(c, log, k);
      } else if k.index != c.next && |c.ooo| < MAX_PARKED_CHUNKS {
        ConsumeAhead(c, log, k);
      }
    } else {
      hide Faithful, Concat, Before, Parked;
    }
  }

  // ---- Whole streams ----

  lemma NewInv(totalSize: nat, totalChunks: nat, tag: int)
    requires totalChunks > 0
    ensures Inv(NewCtx(totalSize, totalChunks, tag), map[])
  {
    EmptyParked(totalChunks);
  }

  lemma {:induction false} EmptyParked(n: nat)
    ensures Parked(map[], n) == 0
  {
    if n > 0 { EmptyParked(n - 1); }
  }

  /** For every sequence of chunks, with any indices, sizes, payloads and destinations: a stream
      still live satisfies the invariant, and a delivered one is exactly the first-arriving payload
      of every index, in index order, of the advertised length. */
  lemma {:induction false} DeliveredIsFirstArrivals(totalSize: nat, totalChunks: nat, tag: int, msgs: seq<Chunk>)
    requires totalChunks > 0
    ensures var o := FeedAll(NewCtx(totalSize, totalChunks, tag), msgs);
      && (o.Live? ==> Inv(o.ctx, FirstArrivals(msgs, totalChunks)))
      && (o.Delivered? ==> DeliveredAt(totalSize, totalChunks, msgs, o.data))
  {
    var c := NewCtx(totalSize, totalChunks, tag);
    if msgs == [] {
      NewInv(totalSize, totalChunks, tag);
    } else {
      var init, k := msgs[..|msgs| - 1], msgs[|msgs| - 1];
      DeliveredIsFirstArrivals(totalSize, totalChunks, tag, init);
      var o := FeedAll(c, init);
      hide Inv, Concat;
      if o.Live? { ConsumeInv(o.ctx, FirstArrivals(init, totalChunks), k); }
    }
  }

  ghost predicate DeliveredAt(totalSize: nat, totalChunks: nat, msgs: seq<Chunk>, data: seq<byte>) {
    && |data| == totalSize && HasAll(FirstArrivals(msgs, totalChunks), totalChunks)
    && data == Concat(FirstArrivals(msgs, totalChunks), totalChunks)
  }
}
