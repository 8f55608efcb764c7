/** The verdict on every chunk, decided from the first arrivals alone: which chunk is refused, which
    one is a repeat, which one ruins its stream and which one completes it, for any indices, sizes
    and destinations. */
module StreamVerdict {
  import opened SlotTypes
  import opened StreamSpec
  import opened StreamSoundness
  import opened StreamCompleteness

  /** Some chunk below the first missing index does not start where those before it end. */
  ghost predicate Misplaced(log: map<nat, Chunk>) {
    exists i :: 0 <= i < FirstMissing(log.Keys, 0) && !AtRunningOffset(log, i)
  }

  /** A first arrival k can no longer be part of a stream of n chunks and `size` bytes: it brings too
      many bytes, or writes past the end, or is one record too many, or exposes a misplaced chunk, or
      is the last index of a stream that is too short. */
  ghost predicate Ruins(log: map<nat, Chunk>, k: Chunk, size: nat, n: nat) {
    var log' := log[k.index := k];
    || Before(log, n) + |k.payload| > size
    || k.dst + |k.payload| > size
    || (k.index != FirstMissing(log.Keys, 0) && |Ahead(log.Keys)| >= MAX_PARKED_CHUNKS)
    || Misplaced(log')
    || (FirstMissing(log'.Keys, 0) == n && Before(log', n) != size)
  }

  // ---- The drain, exactly ----

  /** Draining reaches the first missing index unless a chunk on the way is misplaced. */
  lemma {:induction false} DrainExact(c: Ctx, log: map<nat, Chunk>)
    requires Accounted(c, log)
    ensures var m := FirstMissing(log.Keys, c.next);
      && (Drain(c).1 <==> forall i :: c.next <= i < m ==> AtRunningOffset(log, i))
      && (Drain(c).1 ==> Drain(c).0.next == m && Drain(c).0.offset == Before(log, m))
    decreases |c.ooo|
  {
    hide Accounted, AtRunningOffset, Before;
    AtCursor(c, log);
    if c.next in c.ooo && c.ooo[c.next].dst == c.offset {
      AccountNextInv(c, log);
      DrainExact(AccountNext(c), log);
    }
  }

  lemma AtCursor(c: Ctx, log: map<nat, Chunk>)
    requires Accounted(c, log)
    ensures (c.next in c.ooo <==> c.next in log.Keys) && c.offset == Before(log, c.next)
    ensures c.next in c.ooo ==> (c.ooo[c.next].dst == c.offset <==> AtRunningOffset(log, c.next))
  {
  }

  lemma FirstMissingFrom(seen: set<nat>, i: nat)
    requires forall j :: 0 <= j < i ==> j in seen
    ensures FirstMissing(seen, 0) == FirstMissing(seen, i)
  {
  }

  lemma ReceivedSoFar(c: Ctx, log: map<nat, Chunk>, n: nat)
    requires Inv(c, log)
    ensures Fits(c, n) <==> Before(log, c.totalChunks) + n <= c.totalSize
  {
    ReceivedBytes(c, log, c.totalChunks);
  }

  // ---- One chunk ----

  lemma InOrderRuling(c: Ctx, log: map<nat, Chunk>, k: Chunk)
    requires Inv(c, log) && k.index == c.next && Fits(c, |k.payload|) && InBounds(c, k.dst, |k.payload|)
    ensures var log' := log[k.index := k]; var m := FirstMissing(log'.Keys, 0);
      && (Consume(c, k).1.Drop? <==> Misplaced(log') || (m == c.totalChunks && Before(log', m) != c.totalSize))
      && (Consume(c, k).1.Deliver? ==> m == c.totalChunks)
      && (Consume(c, k).1.Ack? ==> m != c.totalChunks)
  {
    var log' := log[k.index := k];
    var m := FirstMissing(log'.Keys, 0);
    RunningFrame(log, k.index, k, c.next, log');
    assert log'.Keys == log.Keys + {k.index};
    assert c.next in log'.Keys && c.next < m;
    if k.dst == c.offset {
      InOrderInv(c, log, k);
      var d := c.(buf := Overlay(c.buf, k.dst, k.payload), offset := c.offset + |k.payload|, next := c.next + 1);
      assert AtRunningOffset(log', c.next);
      FirstMissingFrom(log'.Keys, d.next);
      DrainExact(d, log');
      DrainKeepsShape(d);
      hide Accounted, Faithful, Overlay, Before, Drain;
    } else {
      assert !AtRunningOffset(log', c.next);
    }
  }

  lemma AheadRuling(c: Ctx, log: map<nat, Chunk>, k: Chunk)
    requires Inv(c, log) && c.next < k.index < c.totalChunks && k.index !in log
    ensures var log' := log[k.index := k]; FirstMissing(log'.Keys, 0) == c.next && !Misplaced(log')
  {
    var log' := log[k.index := k];
    RunningFrame(log, k.index, k, c.next, log');
    assert log'.Keys == log.Keys + {k.index};
    var m := FirstMissing(log'.Keys, 0);
    assert c.next !in log'.Keys && m <= c.next;
    assert m !in log;
  }

  /** What the verdict says of a live stream and any chunk at all. */
  ghost predicate Ruled(c: Ctx, log: map<nat, Chunk>, k: Chunk)
    requires |c.buf| == c.totalSize
  {
    var (d, v) := Consume(c, k);
    if k.index >= c.totalChunks then v.Reject? && d == c
    else if k.index in log then v.Ack? && d == c
    else
      && (v.Drop? <==> Ruins(log, k, c.totalSize, c.totalChunks))
      && (v.Deliver? <==> !v.Drop? && FirstMissing(log[k.index := k].Keys, 0) == c.totalChunks)
      && (v.Ack? || v.Drop? || v.Deliver?)
  }

  lemma FirstArrivalRuling(c: Ctx, log: map<nat, Chunk>, k: Chunk)
    requires Inv(c, log) && k.index < c.totalChunks && k.index !in log
    ensures Ruled(c, log, k)
  {
    CursorIsFirstMissing(c, log);
    assert |c.ooo| == |c.ooo.Keys| == |Ahead(log.Keys)|;
    assert c.next <= k.index && k.index !in c.ooo;
    ReceivedSoFar(c, log, |k.payload|);
    var log' := log[k.index := k];
    if Fits(c, |k.payload|) && InBounds(c, k.dst, |k.payload|) {
      if k.index == c.next {
        InOrderRuling(c, log, k);
        assert !Consume(c, k).1.Reject?;
      } else {
        AheadRuling(c, log, k);
      }
    }
  }

  /** For every sequence of chunks that leaves a stream live, and any chunk next, the verdict is
      decided by the first arrivals: refused exactly out of range, acknowledged without effect when
      repeated, and otherwise ruined exactly as defined, or complete, or kept. */
  lemma ExactVerdict(totalSize: nat, totalChunks: nat, tag: int, msgs: seq<Chunk>, k: Chunk)
    requires totalChunks > 0 && FeedAll(NewCtx(totalSize, totalChunks, tag), msgs).Live?
    ensures Ruled(FeedAll(NewCtx(totalSize, totalChunks, tag), msgs).ctx, FirstArrivals(msgs, totalChunks), k)
  {
    hide FeedAll;
    var c, log := FeedAll(NewCtx(totalSize, totalChunks, tag), msgs).ctx, FirstArrivals(msgs, totalChunks);
    DeliveredIsFirstArrivals(totalSize, totalChunks, tag, msgs);
    if k.index < totalChunks && k.index !in log { FirstArrivalRuling(c, log, k); }
  }
}
