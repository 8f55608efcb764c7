/** The sender's cut of a buffer into chunks, the FIFO window that pipelines them, and the round
    trip through the reassembler. */
module StreamSender {
  import opened Arithmetic
  import opened Finite
  import opened SlotTypes
  import opened StreamSpec
  import opened StreamSoundness
  import opened StreamCompleteness

  // ---- Cutting ----

  /** The payloads of a stream: full slots and a last partial one. */
  function Pieces(data: seq<byte>, maxPayload: nat): (ps: seq<seq<byte>>)
    requires maxPayload > 0
    ensures forall i :: 0 <= i < |ps| ==> 0 < |ps[i]| <= maxPayload
  {
    if data == [] then []
    else if |data| <= maxPayload then [data]
    else [data[..maxPayload]] + Pieces(data[maxPayload..], maxPayload)
  }

  /** The count the STREAM_START advertises. */
  function TotalChunks(size: nat, maxPayload: nat): nat
    requires maxPayload > 0
  {
    (size + maxPayload - 1) / maxPayload
  }

  lemma {:induction false} PieceCount(data: seq<byte>, maxPayload: nat)
    requires maxPayload > 0
    ensures |Pieces(data, maxPayload)| == TotalChunks(|data|, maxPayload)
  {
    if |data| > maxPayload {
      PieceCount(data[maxPayload..], maxPayload);
      DivStep(|data| - 1, maxPayload);
    } else if data != [] {
      DivStep(|data| - 1, maxPayload);
      DivUnique(|data| - 1, 0, |data| - 1, maxPayload);
    }
  }

  lemma DivStep(a: nat, m: nat)
    requires m > 0
    ensures (a + m) / m == a / m + 1
  {
    assert a + m == (a / m + 1) * m + a % m;
    DivUnique(a + m, a / m + 1, a % m, m);
  }

  lemma {:induction false} StartOfTail(p: seq<byte>, ps: seq<seq<byte>>, i: nat)
    requires i <= |ps|
    ensures Start([p] + ps, i + 1) == |p| + Start(ps, i)
    ensures Flat([p] + ps, i + 1) == p + Flat(ps, i)
  {
    if i > 0 { StartOfTail(p, ps, i - 1); }
  }

  function FirstSize(size: nat, maxPayload: nat): nat { if size > maxPayload then maxPayload else size }

  lemma PiecesStep(data: seq<byte>, maxPayload: nat)
    requires maxPayload > 0 && data != []
    ensures var n := FirstSize(|data|, maxPayload);
      0 < n <= |data| && Pieces(data, maxPayload) == [data[..n]] + Pieces(data[n..], maxPayload)
  {
    if |data| <= maxPayload { assert data[..|data|] == data && data[|data|..] == []; }
  }

  /** The pieces are the data, in order. */
  lemma {:induction false} PiecesFlatten(data: seq<byte>, maxPayload: nat)
    requires maxPayload > 0
    ensures var ps := Pieces(data, maxPayload); Flat(ps, |ps|) == data && Start(ps, |ps|) == |data|
  {
    if data != [] {
      var n := FirstSize(|data|, maxPayload);
      PiecesStep(data, maxPayload);
      FlattenStep(data, n, Pieces(data[n..], maxPayload)) by {
        PiecesFlatten(data[n..], maxPayload);
      }
    }
  }

  lemma FlattenStep(data: seq<byte>, n: nat, ps: seq<seq<byte>>)
    requires n <= |data| && Flat(ps, |ps|) == data[n..]
    ensures var qs := [data[..n]] + ps; Flat(qs, |qs|) == data && Start(qs, |qs|) == |data|
  {
    StartOfTail(data[..n], ps, |ps|);
    assert data[..n] + data[n..] == data;
  }

  /** The chunk loop of both senders: what is left, where it starts, and the next index. */
  method Cut(data: seq<byte>, maxPayload: nat) returns (chunks: seq<Chunk>)
    requires maxPayload > 0
    ensures |chunks| == TotalChunks(|data|, maxPayload) == |Pieces(data, maxPayload)|
    ensures forall i :: 0 <= i < |chunks| ==> chunks[i] == ChunkOf(Pieces(data, maxPayload), i)
  {
    PieceCount(data, maxPayload);
    hide Pieces, TotalChunks, Start;
    ghost var ps := Pieces(data, maxPayload);
    var offset, chunkIndex := 0, 0;
    chunks := [];
    assert Start(ps, 0) == 0 by { NoneBefore(ps); }
    while offset < |data|
      invariant 0 <= offset <= |data| && chunkIndex == |chunks| <= |ps|
      invariant ps[chunkIndex..] == Pieces(data[offset..], maxPayload) && offset == Start(ps, chunkIndex)
      invariant forall i :: 0 <= i < |chunks| ==> chunks[i] == ChunkOf(ps, i)
      decreases |data| - offset
    {
      var remaining := |data| - offset;
      var size := if remaining > maxPayload then maxPayload else remaining;
      TailStep(data, maxPayload, ps, offset, chunkIndex, size);
      chunks := chunks + [Chunk(chunkIndex, offset, data[offset..offset + size])];
      offset, chunkIndex := offset + size, chunkIndex + 1;
    }
    assert ps[chunkIndex..] == [] by { NoPieces(data[offset..], maxPayload); }
  }

  lemma NoneBefore(ps: seq<seq<byte>>)
    ensures Start(ps, 0) == 0
  {
  }

  lemma NoPieces(data: seq<byte>, maxPayload: nat)
    requires maxPayload > 0 && data == []
    ensures Pieces(data, maxPayload) == []
  {
  }

  lemma TailStep(data: seq<byte>, maxPayload: nat, ps: seq<seq<byte>>, offset: nat, i: nat, size: nat)
    requires maxPayload > 0 && offset < |data| && i <= |ps| && size == FirstSize(|data| - offset, maxPayload)
    requires ps[i..] == Pieces(data[offset..], maxPayload)
    ensures i < |ps| && ps[i] == data[offset..offset + size] && ps[i + 1..] == Pieces(data[offset + size..], maxPayload)
    ensures Start(ps, i + 1) == Start(ps, i) + size
  {
    hide Pieces;
    var rest := data[offset..];
    PiecesStep(rest, maxPayload);
    assert rest[..size] == data[offset..offset + size] && rest[size..] == data[offset + size..];
    assert ps[i..][0] == ps[i] && ps[i..][1..] == ps[i + 1..];
  }

  // ---- The FIFO window ----

  /** A pipelined send of n chunks with `depth` slots: chunks below `sent` are published, chunks
      below `drained` were waited for, and `handled` is the order the receiver took them in. */
  datatype Pipe = Pipe(n: nat, depth: nat, sent: nat, drained: nat, handled: seq<nat>)

  ghost predicate Begins(p: Pipe) { p.sent == 0 && p.drained == 0 && p.handled == [] }

  /** Publish the next chunk if a slot is free, wait for the oldest, or a receiver worker handles
      any published chunk. */
  ghost predicate Step(p: Pipe, q: Pipe) {
    || (p.sent < p.n && p.sent - p.drained < p.depth && q == p.(sent := p.sent + 1))
    || (p.drained < p.sent && p.drained in p.handled && q == p.(drained := p.drained + 1))
    || (exists j: nat :: j < p.sent && j !in p.handled && q == p.(handled := p.handled + [j]))
  }

  ghost predicate IsRun(run: seq<Pipe>) {
    && |run| > 0 && Begins(run[0])
    && forall k :: 0 <= k < |run| - 1 ==> Step(run[k], run[k + 1])
  }

  ghost predicate PipeInv(p: Pipe) {
    && p.drained <= p.sent <= p.n && p.sent - p.drained <= p.depth
    && (forall j :: 0 <= j < p.drained ==> j in p.handled)
    && (forall j :: j in p.handled ==> j < p.sent)
  }

  /** The indices strictly between m and n. */
  function Between(m: nat, n: nat): (s: set<nat>)
    requires m < n
    ensures |s| == n - m - 1 && forall i: nat :: i in s <==> m < i < n
  {
    if n == m + 1 then {} else Between(m, n - 1) + {n - 1}
  }

  /** No chunk is handled far ahead of the first missing one. */
  lemma AheadBound(p: Pipe, j: nat)
    requires PipeInv(p) && j < p.sent && j !in p.handled
    ensures var seen := Seen(p.handled); var m := FirstMissing(seen, 0);
      && p.drained <= m && m <= j && (j != m ==> |Ahead(seen)| + 2 <= p.depth && |Ahead(seen)| + 2 <= p.n)
  {
    var seen := Seen(p.handled);
    var m := FirstMissing(seen, 0);
    assert j !in seen && m <= j;
    assert m !in p.handled;
    if j != m {
      var later := Between(m, p.sent);
      assert Ahead(seen) + {j} <= later;
      SubsetSize(Ahead(seen) + {j}, later);
    }
  }

  lemma StepInv(p: Pipe, q: Pipe)
    requires PipeInv(p) && Step(p, q)
    ensures PipeInv(q) && q.n == p.n && q.depth == p.depth
  {
  }

  /** The order in which a receiver handles the chunks of a shallow enough or short enough stream
      stays within the reassembler's window, and never more than depth - 1 chunks are ahead. */
  lemma {:induction false} HandledWithinWindow(run: seq<Pipe>, k: nat)
    requires IsRun(run) && k < |run| && (run[0].depth <= MAX_PARKED_CHUNKS + 1 || run[0].n <= MAX_PARKED_CHUNKS + 1)
    ensures PipeInv(run[k]) && run[k].n == run[0].n && run[k].depth == run[0].depth
    ensures WithinWindow(run[k].handled, run[0].n)
  {
    if k > 0 {
      HandledWithinWindow(run, k - 1);
      var p, q := run[k - 1], run[k];
      assert Step(p, q);
      StepInv(p, q);
      if q.handled != p.handled {
        var j: nat :| j < p.sent && j !in p.handled && q == p.(handled := p.handled + [j]);
        AheadBound(p, j);
        assert q.handled[..|q.handled| - 1] == p.handled;
      }
    }
  }

  /** The receiver never holds more than depth - 1 chunks ahead of its cursor. */
  lemma ParkedAtMostDepthMinusOne(run: seq<Pipe>, k: nat)
    requires IsRun(run) && k < |run|
    ensures PipeInv(run[k]) && (run[k].sent > 0 ==> |Ahead(Seen(run[k].handled))| <= run[k].depth - 1)
  {
    RunPipeInv(run, k);
    var p := run[k];
    var seen := Seen(p.handled);
    var m := FirstMissing(seen, 0);
    assert m !in p.handled;
    if m < p.sent {
      assert Ahead(seen) <= Between(m, p.sent);
      SubsetSize(Ahead(seen), Between(m, p.sent));
    } else if p.sent > 0 {
      assert Ahead(seen) == {};
      SentImpliesDepth(run, k);
    }
  }

  lemma {:induction false} RunPipeInv(run: seq<Pipe>, k: nat)
    requires IsRun(run) && k < |run|
    ensures PipeInv(run[k]) && run[k].n == run[0].n && run[k].depth == run[0].depth
  {
    if k > 0 {
      RunPipeInv(run, k - 1);
      assert Step(run[k - 1], run[k]);
      StepInv(run[k - 1], run[k]);
    }
  }

  /** The receiver handles each chunk at most once. */
  lemma {:induction false} HandledOnce(run: seq<Pipe>, k: nat)
    requires IsRun(run) && k < |run|
    ensures forall a, b :: 0 <= a < b < |run[k].handled| ==> run[k].handled[a] != run[k].handled[b]
  {
    if k > 0 {
      HandledOnce(run, k - 1);
      assert Step(run[k - 1], run[k]);
    }
  }

  lemma {:induction false} SentImpliesDepth(run: seq<Pipe>, k: nat)
    requires IsRun(run) && k < |run| && run[k].sent > 0
    ensures run[k].depth > 0
  {
    if k > 0 {
      assert Step(run[k - 1], run[k]);
      RunPipeInv(run, k - 1);
      if run[k - 1].sent > 0 { SentImpliesDepth(run, k - 1); }
    }
  }

  // ---- End to end ----

  /** The receiver's view of the chunks handled so far. */
  ghost function Received(data: seq<byte>, maxPayload: nat, tag: int, handled: seq<nat>): Outcome
    requires maxPayload > 0 && Indices(Pieces(data, maxPayload), handled)
  {
    FeedAll(NewCtx(|data|, TotalChunks(|data|, maxPayload), tag), Arrivals(Pieces(data, maxPayload), handled))
  }

  /** Any data, cut by the sender and handled in any order its window allows, is reassembled to
      exactly that data once every chunk is handled, and never dropped on the way. */
  lemma RoundTrip(data: seq<byte>, maxPayload: nat, tag: int, run: seq<Pipe>, k: nat)
    requires maxPayload > 0 && data != [] && IsRun(run) && k < |run|
    requires run[0].n == TotalChunks(|data|, maxPayload)
    requires run[0].depth <= MAX_PARKED_CHUNKS + 1 || run[0].n <= MAX_PARKED_CHUNKS + 1
    ensures Indices(Pieces(data, maxPayload), run[k].handled)
    ensures !Received(data, maxPayload, tag, run[k].handled).Dropped?
    ensures run[k].drained == run[0].n ==> run[k].sent == run[0].n && Received(data, maxPayload, tag, run[k].handled) == Delivered(data)
  {
    var ps := Pieces(data, maxPayload);
    PieceCount(data, maxPayload);
    PiecesFlatten(data, maxPayload);
    HandledWithinWindow(run, k);
    var handled := run[k].handled;
    assert forall i :: 0 <= i < |handled| ==> handled[i] in handled;
    ExactOutcome(ps, tag, run[k].handled);
  }

  // ---- The window depth is exact ----

  ghost predicate RunOf(n: nat, depth: nat, run: seq<Pipe>) {
    IsRun(run) && run[0].n == n && run[0].depth == depth
  }

  function Last(run: seq<Pipe>): Pipe
    requires |run| > 0
  {
    run[|run| - 1]
  }

  lemma Extend(run: seq<Pipe>, q: Pipe) returns (longer: seq<Pipe>)
    requires IsRun(run) && Step(Last(run), q)
    ensures IsRun(longer) && longer[0] == run[0] && Last(longer) == q
  {
    longer := run + [q];
    assert forall k :: 0 <= k < |longer| - 1 ==> longer[k] == run[k] && Step(longer[k], longer[k + 1]);
  }

  /** The first m indices after 0. */
  function Up(m: nat): seq<nat> { seq(m, i => i + 1) }

  /** A sender may publish m + 1 chunks and have all but the first handled. */
  lemma {:induction false} SkipsFirst(n: nat, depth: nat, m: nat) returns (run: seq<Pipe>)
    requires m < n && m < depth
    ensures RunOf(n, depth, run) && Last(run) == Pipe(n, depth, m + 1, 0, Up(m))
  {
    if m == 0 {
      run := [Pipe(n, depth, 0, 0, [])];
      run := Extend(run, Pipe(n, depth, 1, 0, []));
      assert Up(0) == [];
    } else {
      run := SkipsFirst(n, depth, m - 1);
      run := Extend(run, Pipe(n, depth, m + 1, 0, Up(m - 1)));
      assert Up(m) == Up(m - 1) + [m];
      assert m !in Up(m - 1);
      run := Extend(run, Pipe(n, depth, m + 1, 0, Up(m)));
    }
  }

  lemma TooFarAhead(n: nat, m: nat)
    requires m > MAX_PARKED_CHUNKS && n > 0
    ensures !WithinWindow(Up(m), n)
    decreases m
  {
    var init := Up(m)[..m - 1];
    assert init == Up(m - 1);
    if m - 1 > MAX_PARKED_CHUNKS {
      TooFarAhead(n, m - 1);
    } else {
      var seen := Seen(Up(m - 1));
      assert 0 !in seen;
      forall i: nat | 0 < i < m ensures i in Ahead(seen) { assert Up(m - 1)[i - 1] == i; }
      assert Ahead(seen) == Between(0, m);
      assert Up(m)[m - 1] == m && m !in seen;
    }
  }

  /** No schedule drops a stream exactly when at most MAX_PARKED_CHUNKS + 1 chunks can be in flight,
      because the window is that shallow or the stream that short. */
  lemma NeverDroppedIff(data: seq<byte>, maxPayload: nat, tag: int, depth: nat)
    requires maxPayload > 0 && data != []
    ensures var n := TotalChunks(|data|, maxPayload);
      (forall run: seq<Pipe>, k: nat :: RunOf(n, depth, run) && 0 <= k < |run| && Indices(Pieces(data, maxPayload), run[k].handled)
        ==> !Received(data, maxPayload, tag, run[k].handled).Dropped?)
      <==> depth <= MAX_PARKED_CHUNKS + 1 || n <= MAX_PARKED_CHUNKS + 1
  {
    var n, ps := TotalChunks(|data|, maxPayload), Pieces(data, maxPayload);
    PieceCount(data, maxPayload);
    PiecesFlatten(data, maxPayload);
    if depth <= MAX_PARKED_CHUNKS + 1 || n <= MAX_PARKED_CHUNKS + 1 {
      forall run: seq<Pipe>, k: nat | RunOf(n, depth, run) && 0 <= k < |run| && Indices(ps, run[k].handled)
        ensures !Received(data, maxPayload, tag, run[k].handled).Dropped?
      {
        RoundTrip(data, maxPayload, tag, run, k);
      }
    } else {
      var m := MAX_PARKED_CHUNKS + 1;
      var run := SkipsFirst(n, depth, m);
      var handled := run[|run| - 1].handled;
      assert Indices(ps, handled);
      TooFarAhead(n, m);
      ExactOutcome(ps, tag, handled);
      assert Received(data, maxPayload, tag, handled).Dropped?;
    }
  }

  // ---- A send can finish ----

  /** The first m indices. */
  function Upto(m: nat): seq<nat> { seq(m, i => i) }

  /** Publishing, handling and waiting for one chunk after the other. */
  lemma {:induction false} OneByOne(n: nat, depth: nat, m: nat) returns (run: seq<Pipe>)
    requires m <= n && depth > 0
    ensures |run| > 0 && RunOf(n, depth, run) && Last(run) == Pipe(n, depth, m, m, Upto(m))
    decreases m
  {
    if m == 0 {
      run := [Pipe(n, depth, 0, 0, [])];
      assert Upto(0) == [];
    } else {
      run := OneByOne(n, depth, m - 1);
      run := Extend(run, Pipe(n, depth, m, m - 1, Upto(m - 1)));
      assert Upto(m) == Upto(m - 1) + [m - 1];
      assert m - 1 !in Upto(m - 1);
      run := Extend(run, Pipe(n, depth, m, m - 1, Upto(m)));
      assert Upto(m)[m - 1] == m - 1;
      run := Extend(run, Pipe(n, depth, m, m, Upto(m)));
    }
  }

  /** A send of n chunks can finish if and only if its window holds one at least, or there is nothing
      to send: with no window the loop publishes nothing and waits for nothing. */
  lemma CanFinishIff(n: nat, depth: nat)
    ensures (exists run: seq<Pipe>, k: nat :: RunOf(n, depth, run) && k < |run| && run[k].drained == n) <==> depth > 0 || n == 0
  {
    if run: seq<Pipe>, k: nat :| RunOf(n, depth, run) && k < |run| && run[k].drained == n {
      RunPipeInv(run, k);
      if n > 0 { SentImpliesDepth(run, k); }
    }
    if n == 0 {
      var run := [Pipe(n, depth, 0, 0, [])];
      assert RunOf(n, depth, run) && run[0].drained == n;
    } else if depth > 0 {
      var run := OneByOne(n, depth, n);
      assert run[|run| - 1].drained == n;
    }
  }
}
