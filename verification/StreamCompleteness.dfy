/** A conforming stream gets through. For every way of cutting data into chunks and every arrival
    order, with repeats, the stream is dropped exactly when some arrival would be the one too many
    recorded ahead of the first missing index; otherwise every message is acknowledged and the
    original data is delivered as soon as every index has arrived. */
module StreamCompleteness {
  import opened SlotTypes
  import opened StreamSpec
  import opened StreamSoundness

  // ---- A stream as its sender cut it ----

  /** Where chunk i starts: the sizes of the chunks before it. */
  function Start(ps: seq<seq<byte>>, i: nat): nat
    requires i <= |ps|
  {
    if i == 0 then 0 else Start(ps, i - 1) + |ps[i - 1]|
  }

  function Flat(ps: seq<seq<byte>>, i: nat): (s: seq<byte>)
    requires i <= |ps|
    ensures |s| == Start(ps, i)
  {
    if i == 0 then [] else Flat(ps, i - 1) + ps[i - 1]
  }

  function ChunkOf(ps: seq<seq<byte>>, i: nat): Chunk
    requires i < |ps|
  {
    Chunk(i, Start(ps, i), ps[i])
  }

  predicate Indices(ps: seq<seq<byte>>, idxs: seq<nat>) { forall k :: 0 <= k < |idxs| ==> idxs[k] < |ps| }

  /** The messages of an arrival order. */
  function Arrivals(ps: seq<seq<byte>>, idxs: seq<nat>): (msgs: seq<Chunk>)
    requires Indices(ps, idxs)
    ensures |msgs| == |idxs| && forall k :: 0 <= k < |idxs| ==> msgs[k] == ChunkOf(ps, idxs[k])
  {
    seq(|idxs|, k requires 0 <= k < |idxs| => ChunkOf(ps, idxs[k]))
  }

  // ---- The window an arrival order needs ----

  function Seen(idxs: seq<nat>): set<nat> { set i | i in idxs }

  function From(seen: set<nat>, i: nat): set<nat> { set j | j in seen && j >= i }

  /** The first index from i on that is not in the set. */
  function FirstMissing(seen: set<nat>, i: nat): (m: nat)
    ensures i <= m && m !in seen && forall j :: i <= j < m ==> j in seen
    decreases From(seen, i)
  {
    if i in seen then
      assert i in From(seen, i) && i !in From(seen, i + 1);
      FirstMissing(seen, i + 1)
    else i
  }

  /** Arrived indices beyond the first missing one. */
  function Ahead(seen: set<nat>): set<nat> {
    var m := FirstMissing(seen, 0);
    set i | i in seen && i > m
  }

  ghost predicate Covered(seen: set<nat>, n: nat) { forall i :: 0 <= i < n ==> i in seen }

  /** One more arrival fits: it is a repeat, or the first missing index, or one of at most
      MAX_PARKED_CHUNKS ahead of it. */
  predicate Admissible(seen: set<nat>, i: nat) {
    i in seen || i == FirstMissing(seen, 0) || |Ahead(seen)| < MAX_PARKED_CHUNKS
  }

  /** Every arrival before completion fits. */
  ghost predicate WithinWindow(idxs: seq<nat>, n: nat) {
    idxs == [] ||
    var init, seen := idxs[..|idxs| - 1], Seen(idxs[..|idxs| - 1]);
    WithinWindow(init, n) && (Covered(seen, n) || Admissible(seen, idxs[|idxs| - 1]))
  }

  // ---- The log of a conforming stream ----

  ghost predicate Conforming(log: map<nat, Chunk>, ps: seq<seq<byte>>) {
    forall i: nat :: i in log ==> i < |ps| && log[i] == ChunkOf(ps, i)
  }

  lemma {:induction false} BeforeIsStart(log: map<nat, Chunk>, ps: seq<seq<byte>>, n: nat)
    requires Conforming(log, ps) && n <= |ps| && HasAll(log, n)
    ensures Before(log, n) == Start(ps, n)
  {
    if n > 0 { BeforeIsStart(log, ps, n - 1); }
  }

  lemma {:induction false} ConcatIsFlat(log: map<nat, Chunk>, ps: seq<seq<byte>>, n: nat)
    requires Conforming(log, ps) && n <= |ps| && HasAll(log, n)
    ensures Concat(log, n) == Flat(ps, n)
  {
    if n > 0 { ConcatIsFlat(log, ps, n - 1); }
  }

  /** The received bytes are those consumed plus those recorded. */
  lemma {:induction false} ReceivedBytes(c: Ctx, log: map<nat, Chunk>, n: nat)
    requires Accounted(c, log) && n <= c.totalChunks
    ensures Before(log, n) == Before(log, if n < c.next then n else c.next) + Parked(c.ooo, n)
  {
    if n > 0 {
      ReceivedBytes(c, log, n - 1);
      if n - 1 in c.ooo { assert c.ooo[n - 1].size == |log[n - 1].payload|; }
    }
  }

  /** A new chunk of a conforming stream always leaves room for itself. */
  lemma {:induction false} RoomFor(log: map<nat, Chunk>, ps: seq<seq<byte>>, i: nat, n: nat)
    requires Conforming(log, ps) && i !in log && i < |ps| && n <= |ps|
    ensures Before(log, n) + (if i < n then |ps[i]| else 0) <= Start(ps, n)
  {
    if n > 0 { RoomFor(log, ps, i, n - 1); }
  }

  lemma {:induction false} StartWithin(ps: seq<seq<byte>>, i: nat, n: nat)
    requires i < n <= |ps|
    ensures Start(ps, i) + |ps[i]| <= Start(ps, n)
  {
    if i + 1 < n { StartWithin(ps, i, n - 1); }
  }

  /** The cursor is where the next chunk of a conforming stream belongs. */
  lemma CursorAtStart(c: Ctx, log: map<nat, Chunk>, ps: seq<seq<byte>>)
    requires Accounted(c, log) && Conforming(log, ps) && |ps| == c.totalChunks
    ensures c.offset == Start(ps, c.next)
    ensures c.next in c.ooo ==> c.ooo[c.next].dst == c.offset
  {
    BeforeIsStart(log, ps, c.next);
  }

  /** A conforming stream never fails a drain. */
  lemma {:induction false} DrainConforms(c: Ctx, log: map<nat, Chunk>, ps: seq<seq<byte>>)
    requires Accounted(c, log) && Conforming(log, ps) && |ps| == c.totalChunks
    ensures Drain(c).1
    decreases |c.ooo|
  {
    hide Accounted, Conforming, Start;
    CursorAtStart(c, log, ps);
    if c.next in c.ooo {
      AccountNextInv(c, log);
      DrainConforms(AccountNext(c), log, ps);
    }
  }

  // ---- One arrival ----

  /** The guards a new chunk of a conforming stream meets all pass. */
  lemma GuardsPass(c: Ctx, log: map<nat, Chunk>, ps: seq<seq<byte>>, i: nat)
    requires Inv(c, log) && Conforming(log, ps) && |ps| == c.totalChunks && c.totalSize == Start(ps, |ps|)
    requires i < |ps| && i !in log
    ensures Fits(c, |ps[i]|) && InBounds(c, Start(ps, i), |ps[i]|)
    ensures i == c.next ==> Start(ps, i) == c.offset
  {
    ReceivedBytes(c, log, |ps|);
    RoomFor(log, ps, i, |ps|);
    StartWithin(ps, i, |ps|);
    CursorAtStart(c, log, ps);
  }

  /** A conforming state that reached the last index has every byte. */
  lemma EndIsFull(c: Ctx, log: map<nat, Chunk>, ps: seq<seq<byte>>)
    requires Accounted(c, log) && Conforming(log, ps) && |ps| == c.totalChunks && c.totalSize == Start(ps, |ps|)
    ensures Acknowledged(Complete(c).1)
  {
    CursorAtStart(c, log, ps);
  }

  /** What a context of a conforming stream looks like from outside. */
  lemma CursorIsFirstMissing(c: Ctx, log: map<nat, Chunk>)
    requires Inv(c, log)
    ensures c.next == FirstMissing(log.Keys, 0) && c.ooo.Keys == Ahead(log.Keys)
    ensures !Covered(log.Keys, c.totalChunks)
  {
    var m := FirstMissing(log.Keys, 0);
    assert c.next !in log.Keys;
    assert m !in log;
  }

  lemma NextIsNew(c: Ctx, log: map<nat, Chunk>, ps: seq<seq<byte>>)
    requires Inv(c, log) && Conforming(log, ps) && |ps| == c.totalChunks
    ensures c.next < |ps| && c.next !in log && c.next !in c.ooo && |c.buf| == c.totalSize
    ensures Conforming(log[c.next := ChunkOf(ps, c.next)], ps)
  {
    hide Faithful, Before, Start, Parked, AtRunningOffset;
  }

  lemma InOrderVerdict(c: Ctx, log: map<nat, Chunk>, ps: seq<seq<byte>>)
    requires Inv(c, log) && Conforming(log, ps) && |ps| == c.totalChunks && c.totalSize == Start(ps, |ps|)
    ensures Acknowledged(Consume(c, ChunkOf(ps, c.next)).1)
  {
    hide Inv, Accounted, Conforming, Start, Overlay, Drain, Complete;
    NextIsNew(c, log, ps);
    var k := ChunkOf(ps, c.next);
    var log' := log[c.next := k];
    GuardsPass(c, log, ps, c.next);
    InOrderInv(c, log, k);
    var d := c.(buf := Overlay(c.buf, k.dst, k.payload), offset := c.offset + |k.payload|, next := c.next + 1);
    DrainConforms(d, log', ps);
    DrainInv(d, log');
    DrainKeepsShape(d);
    EndIsFull(Drain(d).0, log', ps);
  }

  /** The verdict on one arrival of a conforming stream. */
  lemma ArrivalVerdict(c: Ctx, log: map<nat, Chunk>, ps: seq<seq<byte>>, i: nat)
    requires Inv(c, log) && Conforming(log, ps) && |ps| == c.totalChunks && c.totalSize == Start(ps, |ps|) && i < |ps|
    ensures Consume(c, ChunkOf(ps, i)).1.Drop? <==> !Admissible(log.Keys, i)
    ensures !Consume(c, ChunkOf(ps, i)).1.Reject?
  {
    CursorIsFirstMissing(c, log);
    assert |c.ooo| == |c.ooo.Keys| == |Ahead(log.Keys)|;
    if i == c.next {
      InOrderVerdict(c, log, ps);
    } else {
      if i !in log { GuardsPass(c, log, ps, i); }
      hide Faithful, Overlay, Start, Before, Parked, AtRunningOffset;
    }
  }

  // ---- Whole streams ----

  lemma {:induction false} LogOfArrivals(ps: seq<seq<byte>>, idxs: seq<nat>)
    requires Indices(ps, idxs)
    ensures var log := FirstArrivals(Arrivals(ps, idxs), |ps|);
      Conforming(log, ps) && log.Keys == Seen(idxs)
  {
    if idxs != [] {
      var init := idxs[..|idxs| - 1];
      LogOfArrivals(ps, init);
      assert Arrivals(ps, idxs)[..|idxs| - 1] == Arrivals(ps, init);
      assert Seen(idxs) == Seen(init) + {idxs[|idxs| - 1]};
    }
  }

  /** Delivered means everything; live means something is missing and the invariant holds. */
  lemma OutcomeOfArrivals(ps: seq<seq<byte>>, tag: int, idxs: seq<nat>)
    requires |ps| > 0 && Indices(ps, idxs)
    ensures var o := FeedAll(NewCtx(Start(ps, |ps|), |ps|, tag), Arrivals(ps, idxs));
      && (o.Live? ==> Inv(o.ctx, FirstArrivals(Arrivals(ps, idxs), |ps|)) && !Covered(Seen(idxs), |ps|))
      && (o.Delivered? ==> o.data == Flat(ps, |ps|) && Covered(Seen(idxs), |ps|))
  {
    var msgs := Arrivals(ps, idxs);
    var o := FeedAll(NewCtx(Start(ps, |ps|), |ps|, tag), msgs);
    DeliveredIsFirstArrivals(Start(ps, |ps|), |ps|, tag, msgs);
    LogOfArrivals(ps, idxs);
    if o.Live? {
      CursorIsFirstMissing(o.ctx, FirstArrivals(msgs, |ps|));
    } else if o.Delivered? {
      ConcatIsFlat(FirstArrivals(msgs, |ps|), ps, |ps|);
      assert forall i :: 0 <= i < |ps| ==> i in Seen(idxs);
    }
  }

  /** The exact outcome of any arrival order of a conforming stream: dropped iff some arrival before
      completion exceeds the window, delivered with the original data iff within the window and
      complete, live otherwise. */
  lemma {:induction false} ExactOutcome(ps: seq<seq<byte>>, tag: int, idxs: seq<nat>)
    requires |ps| > 0 && Indices(ps, idxs)
    ensures var o := FeedAll(NewCtx(Start(ps, |ps|), |ps|, tag), Arrivals(ps, idxs));
      && (o.Dropped? <==> !WithinWindow(idxs, |ps|))
      && (o == Delivered(Flat(ps, |ps|)) <==> WithinWindow(idxs, |ps|) && Covered(Seen(idxs), |ps|))
      && (o.Live? <==> WithinWindow(idxs, |ps|) && !Covered(Seen(idxs), |ps|))
  {
    OutcomeOfArrivals(ps, tag, idxs);
    if idxs != [] {
      ExactOutcome(ps, tag, idxs[..|idxs| - 1]);
      LastArrival(ps, tag, idxs);
    }
  }

  lemma LastVerdict(ps: seq<seq<byte>>, tag: int, init: seq<nat>, last: nat, c: Ctx)
    requires |ps| > 0 && Indices(ps, init) && last < |ps|
    requires FeedAll(NewCtx(Start(ps, |ps|), |ps|, tag), Arrivals(ps, init)) == Live(c)
    ensures |c.buf| == c.totalSize && !Covered(Seen(init), |ps|)
    ensures Consume(c, ChunkOf(ps, last)).1.Drop? <==> !Admissible(Seen(init), last)
  {
    hide Consume, Inv, Conforming, Start, Covered, Admissible, FirstArrivals;
    OutcomeOfArrivals(ps, tag, init);
    LogOfArrivals(ps, init);
    ArrivalVerdict(c, FirstArrivals(Arrivals(ps, init), |ps|), ps, last);
  }

  lemma LastFeed(ps: seq<seq<byte>>, c: Ctx, idxs: seq<nat>)
    requires |c.buf| == c.totalSize && idxs != [] && Indices(ps, idxs)
    ensures var init := idxs[..|idxs| - 1];
      FeedAll(c, Arrivals(ps, idxs)) == Feed(FeedAll(c, Arrivals(ps, init)), ChunkOf(ps, idxs[|idxs| - 1]))
  {
    hide FeedAll, Feed, ChunkOf;
    var init := idxs[..|idxs| - 1];
    assert Arrivals(ps, idxs) == Arrivals(ps, init) + [ChunkOf(ps, idxs[|idxs| - 1])];
    FeedOne(c, Arrivals(ps, init), ChunkOf(ps, idxs[|idxs| - 1]));
  }

  /** The last arrival of an order drops a stream that was live iff it does not fit. */
  lemma LastArrival(ps: seq<seq<byte>>, tag: int, idxs: seq<nat>)
    requires |ps| > 0 && idxs != [] && Indices(ps, idxs)
    ensures var c, init := NewCtx(Start(ps, |ps|), |ps|, tag), idxs[..|idxs| - 1];
      var before, after := FeedAll(c, Arrivals(ps, init)), FeedAll(c, Arrivals(ps, idxs));
      && Seen(init) <= Seen(idxs)
      && (before.Live? ==> !Covered(Seen(init), |ps|) && (after.Dropped? <==> !Admissible(Seen(init), idxs[|idxs| - 1])))
      && (!before.Live? ==> after == before)
  {
    hide Consume, Start, Covered, Admissible, FeedAll, Arrivals;
    var last, init := idxs[|idxs| - 1], idxs[..|idxs| - 1];
    var c := NewCtx(Start(ps, |ps|), |ps|, tag);
    LastFeed(ps, c, idxs);
    var o := FeedAll(c, Arrivals(ps, init));
    if o.Live? { LastVerdict(ps, tag, init, last, o.ctx); }
  }
}
