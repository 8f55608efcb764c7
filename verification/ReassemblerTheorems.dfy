/** What both handlers guarantee over every sequence of messages, with any number of streams
    interleaved: a delivery is the first arrivals of the stream its last start opened, no start is
    delivered twice, and a conforming sender's data arrives exactly once. */
module ReassemblerTheorems {
  import opened SlotTypes
  import opened StreamSpec
  import opened StreamWire
  import opened StreamSoundness
  import opened StreamCompleteness
  import opened StreamSender
  import opened StreamVerdict
  import opened ReassemblerSpec
  import opened ReassemblerParity

  type Contexts = map<nat, Ctx>

  ghost predicate Shaped(t: Contexts) { forall id :: id in t ==> |t[id].buf| == t[id].totalSize }

  /** Streams may be lost to age or displacement, but none is changed by it. */
  ghost predicate Lost(t: Contexts, u: Contexts) { forall id :: id in u ==> id in t && u[id] == t[id] }

  // ---- What the two handlers have in common ----

  ghost predicate StartStep(t: Contexts, m: Message, r: Reply, u: Contexts)
    requires m.StartBytes?
  {
    if Opening(m) && r.ack then
      var h := DecodeStart(m.req).value;
      r.out == [] && h.id in u && u[h.id] == Fresh(h) && Lost(t, u - {h.id})
    else Lost(t, u) && (r.out == [] || EmptyStream(m, r.out))
  }

  ghost predicate EmptyStream(m: Message, out: seq<Delivery>)
    requires m.StartBytes?
  {
    && DecodeStart(m.req).Some? && Judge(DecodeStart(m.req).value).Empty?
    && out == [Delivery(DecodeStart(m.req).value.id, DecodeStart(m.req).value.tag, [])]
  }

  ghost predicate ChunkStep(t: Contexts, req: seq<byte>, r: Reply, u: Contexts)
    requires Shaped(t)
  {
    if DecodeChunk(req).None? || DecodeChunk(req).value.id !in t then r == ERROR && u == t
    else
      var m := DecodeChunk(req).value;
      var (c, v) := Consume(t[m.id], m.chunk);
      && r == ChunkReply(m.id, t[m.id].tag, v)
      && u == if Retires(v) then t - {m.id} else t[m.id := c]
  }

  ghost predicate TableStep(t: Contexts, m: Message, r: Reply, u: Contexts) {
    if m.StartBytes? then StartStep(t, m, r, u) else Shaped(t) && ChunkStep(t, m.req, r, u)
  }

  ghost function GoContexts(t: GoTable): Contexts { map id | id in t.streams :: t.streams[id].ctx }

  ghost function CppContexts(t: CppTable): Contexts { map id | id in t :: t[id].ctx }

  lemma GoIsTableStep(t: GoTable, m: Message, timeout: int, u: GoTable, r: Reply)
    requires GoShaped(t) && GoStep(t, m, timeout, u, r)
    ensures TableStep(GoContexts(t), m, r, GoContexts(u))
  {
    hide DecodeStart, DecodeChunk, Drain, Complete;
    match m
    case StartBytes(req, now) => {}
    case ChunkBytes(req) => {}
  }

  lemma CppIsTableStep(t: CppTable, m: Message, timeoutMs: nat)
    requires CppShaped(t)
    ensures var (u, r) := CppStep(t, m, timeoutMs); TableStep(CppContexts(t), m, r, CppContexts(u))
  {
    hide DecodeStart, DecodeChunk, Consume;
    match m
    case StartBytes(req, now) => {}
    case ChunkBytes(req) =>
      if DecodeChunk(req).Some? && DecodeChunk(req).value.id in t {
        var id := DecodeChunk(req).value.id;
        var (c, v) := Consume(t[id].ctx, DecodeChunk(req).value.chunk);
        assert CppContexts(t - {id}) == CppContexts(t) - {id};
        assert CppContexts(t[id := CppStream(c, t[id].started)]) == CppContexts(t)[id := c];
      }
  }

  // ---- Episodes ----

  /** A start that was accepted, and the chunks of its stream since. */
  datatype Episode = Episode(h: StartMsg, chunks: seq<Chunk>)

  predicate Opens(m: Message, r: Reply, id: nat) {
    Opening(m) && r.ack && DecodeStart(m.req).value.id == id
  }

  predicate IsChunkOf(m: Message, id: nat) {
    m.ChunkBytes? && DecodeChunk(m.req).Some? && DecodeChunk(m.req).value.id == id
  }

  function After(prev: Option<Episode>, id: nat, m: Message, r: Reply): Option<Episode> {
    if Opens(m, r, id) then Some(Episode(DecodeStart(m.req).value, []))
    else if prev.Some? && IsChunkOf(m, id) then
      Some(prev.value.(chunks := prev.value.chunks + [DecodeChunk(m.req).value.chunk]))
    else prev
  }

  /** The last accepted start of a stream id and its chunks since. */
  function Since(id: nat, msgs: seq<Message>, replies: seq<Reply>): Option<Episode>
    requires |replies| == |msgs|
  {
    if msgs == [] then None
    else
      var n := |msgs| - 1;
      After(Since(id, msgs[..n], replies[..n]), id, msgs[n], replies[n])
  }

  function OutcomeOf(e: Episode): Outcome { FeedAll(Fresh(e.h), e.chunks) }

  ghost predicate Tracked(e: Option<Episode>, c: Ctx) {
    e.Some? && e.value.h.totalChunks > 0 && OutcomeOf(e.value) == Live(c)
  }

  ghost predicate TrackedIn(e: Option<Episode>, t: Contexts, id: nat) { id in t ==> Tracked(e, t[id]) }

  /** The table and the reply are what the episode comes to. */
  ghost predicate Follows(e: Episode, id: nat, r: Reply, u: Contexts) {
    match OutcomeOf(e)
    case Live(c) => id in u && u[id] == c && r.out == []
    case Dropped => id !in u && r.out == []
    case Delivered(data) => id !in u && r.out == [Delivery(id, e.h.tag, data)]
  }

  lemma ChunkTracks(t: Contexts, m: Message, r: Reply, u: Contexts, id: nat, prev: Option<Episode>)
    requires IsChunkOf(m, id) && TableStep(t, m, r, u) && id in t && Tracked(prev, t[id])
    ensures var e := After(prev, id, m, r); e.Some? && e.value.h == prev.value.h && Follows(e.value, id, r, u)
  {
    hide DecodeChunk, Consume;
    var k := DecodeChunk(m.req).value.chunk;
    FeedOne(Fresh(prev.value.h), prev.value.chunks, k);
    var (c, v) := Consume(t[id], k);
    var e := After(prev, id, m, r).value;
    assert OutcomeOf(e) == Feed(Live(t[id]), k) && t[id].tag == e.h.tag;
    match v
    case Ack | Reject => assert OutcomeOf(e) == Live(c);
    case Drop => assert OutcomeOf(e) == Dropped;
    case Deliver(data) => assert OutcomeOf(e) == Delivered(data);
  }

  /** Every stream in the table is the outcome of its episode. */
  lemma StepTracks(t: Contexts, m: Message, r: Reply, u: Contexts, id: nat, prev: Option<Episode>)
    requires TableStep(t, m, r, u) && TrackedIn(prev, t, id)
    ensures TrackedIn(After(prev, id, m, r), u, id)
  {
    hide DecodeStart, DecodeChunk, Consume;
    if IsChunkOf(m, id) && id in t { ChunkTracks(t, m, r, u, id, prev); }
    if Opens(m, r, id) { assert (u - {id}).Keys == u.Keys - {id}; }
    if m.StartBytes? && Opening(m) && r.ack && !Opens(m, r, id) {
      var other := DecodeStart(m.req).value.id;
      assert id in u ==> id in u - {other} && (u - {other})[id] == u[id];
    }
  }

  // ---- Chronicles ----

  /** The replies and tables of a handler over a sequence of messages, from an empty table. */
  ghost predicate Chronicle(msgs: seq<Message>, replies: seq<Reply>, tables: seq<Contexts>) {
    && |replies| == |msgs| && |tables| == |msgs| + 1 && tables[0] == map[]
    && forall k :: 0 <= k < |msgs| ==> TableStep(tables[k], msgs[k], replies[k], tables[k + 1])
  }

  ghost function GoTables(tables: seq<GoTable>): seq<Contexts> {
    seq(|tables|, k requires 0 <= k < |tables| => GoContexts(tables[k]))
  }

  /** Every run of the Go handler, and every message sequence through the C++ one, is a chronicle. */
  lemma GoRunIsChronicle(msgs: seq<Message>, timeout: int, tables: seq<GoTable>, replies: seq<Reply>)
    requires GoRun(msgs, timeout, tables, replies)
    ensures Chronicle(msgs, replies, GoTables(tables))
  {
    hide GoStep, TableStep;
    forall k | 0 <= k < |msgs| ensures TableStep(GoTables(tables)[k], msgs[k], replies[k], GoTables(tables)[k + 1]) {
      GoIsTableStep(tables[k], msgs[k], timeout, tables[k + 1], replies[k]);
    }
  }

  ghost function CppTables(msgs: seq<Message>, timeoutMs: nat): seq<Contexts> {
    seq(|msgs| + 1, k requires 0 <= k <= |msgs| => CppContexts(CppAfter(msgs[..k], timeoutMs)))
  }

  ghost function CppReplies(msgs: seq<Message>, timeoutMs: nat): seq<Reply> {
    seq(|msgs|, k requires 0 <= k < |msgs| => CppReply(msgs, k, timeoutMs))
  }

  lemma CppRunIsChronicle(msgs: seq<Message>, timeoutMs: nat)
    ensures Chronicle(msgs, CppReplies(msgs, timeoutMs), CppTables(msgs, timeoutMs))
  {
    hide CppStep, TableStep;
    var tables, replies := CppTables(msgs, timeoutMs), CppReplies(msgs, timeoutMs);
    forall k | 0 <= k < |msgs| ensures TableStep(tables[k], msgs[k], replies[k], tables[k + 1]) {
      CppIsTableStep(CppAfter(msgs[..k], timeoutMs), msgs[k], timeoutMs);
      assert msgs[..k + 1][..k] == msgs[..k];
    }
    assert msgs[..0] == [];
  }

  lemma {:induction false} ChronicleTracks(msgs: seq<Message>, replies: seq<Reply>, tables: seq<Contexts>, k: nat, id: nat)
    requires Chronicle(msgs, replies, tables) && k <= |msgs|
    ensures TrackedIn(Since(id, msgs[..k], replies[..k]), tables[k], id)
  {
    hide TableStep, Tracked, After;
    if k > 0 {
      ChronicleTracks(msgs, replies, tables, k - 1, id);
      SinceStep(msgs, replies, k - 1, id);
      StepTracks(tables[k - 1], msgs[k - 1], replies[k - 1], tables[k], id, Since(id, msgs[..k - 1], replies[..k - 1]));
    }
  }

  lemma SinceStep(msgs: seq<Message>, replies: seq<Reply>, k: nat, id: nat)
    requires k < |msgs| && |replies| == |msgs|
    ensures Since(id, msgs[..k + 1], replies[..k + 1]) == After(Since(id, msgs[..k], replies[..k]), id, msgs[k], replies[k])
  {
    assert msgs[..k + 1][..k] == msgs[..k] && replies[..k + 1][..k] == replies[..k];
  }

  /** A delivery is justified: an empty stream, or the first arrival of every index since the last
      accepted start of that id, under that start's tag and of the length it advertised. */
  ghost predicate JustifiedBy(d: Delivery, m: Message, e: Option<Episode>) {
    || (m.StartBytes? && EmptyStream(m, [d]))
    || (&& IsChunkOf(m, d.id) && e.Some? && d.tag == e.value.h.tag
        && DeliveredAt(e.value.h.totalSize, e.value.h.totalChunks, e.value.chunks, d.data))
  }

  /** Every delivery, in every sequence of messages over any number of streams, is justified. */
  lemma EveryDeliveryIsJustified(msgs: seq<Message>, replies: seq<Reply>, tables: seq<Contexts>, k: nat, d: Delivery)
    requires Chronicle(msgs, replies, tables) && k < |msgs| && d in replies[k].out
    ensures replies[k].out == [d] && JustifiedBy(d, msgs[k], Since(d.id, msgs[..k + 1], replies[..k + 1]))
  {
    hide DecodeStart, DecodeChunk, Consume, Since, DeliveredAt;
    var m, r, prev := msgs[k], replies[k], Since(d.id, msgs[..k], replies[..k]);
    assert TableStep(tables[k], m, r, tables[k + 1]);
    if m.ChunkBytes? {
      ChronicleTracks(msgs, replies, tables, k, d.id);
      SinceStep(msgs, replies, k, d.id);
      ChunkTracks(tables[k], m, r, tables[k + 1], d.id, prev);
      var e := After(prev, d.id, m, r).value;
      DeliveredIsFirstArrivals(e.h.totalSize, e.h.totalChunks, e.h.tag, e.chunks);
    }
  }

  // ---- Replies ----

  /** What a chunk of stream id is answered: an acknowledgement, or an error that leaves the table
      alone, or an error that retires the stream undelivered. */
  ghost predicate Answered(k: Chunk, id: nat, t: Contexts, r: Reply, u: Contexts, e: Option<Episode>) {
    if id !in t then !r.ack && r.out == [] && u == t
    else
      && e.Some? && t[id].totalChunks == e.value.h.totalChunks
      && var h, log := e.value.h, FirstArrivals(e.value.chunks, e.value.h.totalChunks);
         if k.index >= h.totalChunks then !r.ack && r.out == [] && u == t
         else if k.index in log then r.ack && r.out == [] && u == t
         else if Ruins(log, k, h.totalSize, h.totalChunks) then !r.ack && r.out == [] && u == t - {id}
         else r.ack && (r.out != [] <==> id !in u)
  }

  lemma AnsweredStep(t: Contexts, m: Message, r: Reply, u: Contexts, id: nat, e: Option<Episode>)
    requires IsChunkOf(m, id) && TableStep(t, m, r, u) && TrackedIn(e, t, id)
    ensures Answered(DecodeChunk(m.req).value.chunk, id, t, r, u, e)
  {
    hide DecodeChunk, Consume, FeedAll, Ruins, FirstArrivals;
    if id in t {
      var k, h, ks := DecodeChunk(m.req).value.chunk, e.value.h, e.value.chunks;
      assert FeedAll(Fresh(h), ks) == Live(t[id]);
      ExactVerdict(h.totalSize, h.totalChunks, h.tag, ks, k);
      var (c, v) := Consume(t[id], k);
      assert v.Ack? && c == t[id] ==> t[id := c] == t;
      assert id !in t - {id};
    }
  }

  /** Every chunk message, over all traffic and for any indices, sizes and destinations, is answered
      as the first arrivals since its stream's last accepted start decide: with an error when it
      names no live stream, is out of range or ruins the stream, and acknowledged otherwise. */
  lemma EveryChunkIsAnswered(msgs: seq<Message>, replies: seq<Reply>, tables: seq<Contexts>, i: nat, id: nat)
    requires Chronicle(msgs, replies, tables) && i < |msgs| && IsChunkOf(msgs[i], id)
    ensures Answered(DecodeChunk(msgs[i].req).value.chunk, id, tables[i], replies[i], tables[i + 1], Since(id, msgs[..i], replies[..i]))
  {
    hide DecodeChunk, Answered, TableStep, Tracked, Since;
    ChronicleTracks(msgs, replies, tables, i, id);
    AnsweredStep(tables[i], msgs[i], replies[i], tables[i + 1], id, Since(id, msgs[..i], replies[..i]));
  }

  /** A chunk message shorter than its header, or than the payload it declares, is an error. */
  lemma MalformedChunkIsAnError(msgs: seq<Message>, replies: seq<Reply>, tables: seq<Contexts>, i: nat)
    requires Chronicle(msgs, replies, tables) && i < |msgs| && msgs[i].ChunkBytes? && DecodeChunk(msgs[i].req).None?
    ensures replies[i] == ERROR && tables[i + 1] == tables[i]
  {
    assert TableStep(tables[i], msgs[i], replies[i], tables[i + 1]);
  }

  // ---- Exactly once ----

  /** Only an accepted start brings a stream into the table. */
  lemma {:induction false} StaysOut(msgs: seq<Message>, replies: seq<Reply>, tables: seq<Contexts>, j: nat, k: nat, id: nat)
    requires Chronicle(msgs, replies, tables) && j <= k <= |msgs| && id !in tables[j]
    requires forall i :: j <= i < k ==> !Opens(msgs[i], replies[i], id)
    ensures id !in tables[k]
  {
    hide DecodeStart, DecodeChunk, Consume;
    if j < k {
      StaysOut(msgs, replies, tables, j, k - 1, id);
      var m, r, t, u := msgs[k - 1], replies[k - 1], tables[k - 1], tables[k];
      assert TableStep(t, m, r, u);
      if m.StartBytes? && Opening(m) && r.ack {
        var other := DecodeStart(m.req).value.id;
        assert id in u ==> id in u - {other};
      }
    }
  }

  ghost predicate DeliversChunk(m: Message, r: Reply, id: nat) { IsChunkOf(m, id) && r.out != [] }

  /** Between two deliveries of a stream id lies an accepted start of it: no start is delivered
      twice. */
  lemma NoStartIsDeliveredTwice(msgs: seq<Message>, replies: seq<Reply>, tables: seq<Contexts>, j: nat, k: nat, id: nat)
    requires Chronicle(msgs, replies, tables) && j < k < |msgs|
    requires DeliversChunk(msgs[j], replies[j], id) && DeliversChunk(msgs[k], replies[k], id)
    ensures exists i :: j < i < k && Opens(msgs[i], replies[i], id)
  {
    hide Consume, Opens, DecodeChunk;
    assert TableStep(tables[j], msgs[j], replies[j], tables[j + 1]);
    assert TableStep(tables[k], msgs[k], replies[k], tables[k + 1]);
    assert id in tables[j] && id !in tables[j + 1];
    if forall i :: j < i < k ==> !Opens(msgs[i], replies[i], id) {
      StaysOut(msgs, replies, tables, j + 1, k, id);
    }
  }

  /** The stream's chunks among some messages. */
  function ChunksOf(id: nat, msgs: seq<Message>): seq<Chunk> {
    if msgs == [] then []
    else
      var m := msgs[|msgs| - 1];
      ChunksOf(id, msgs[..|msgs| - 1]) + if IsChunkOf(m, id) then [DecodeChunk(m.req).value.chunk] else []
  }

  /** The deliveries of a stream id among some replies. */
  function DeliveriesOf(id: nat, replies: seq<Reply>): seq<Delivery> {
    if replies == [] then []
    else
      var r := replies[|replies| - 1];
      DeliveriesOf(id, replies[..|replies| - 1]) + if r.out != [] && r.out[0].id == id then r.out else []
  }

  predicate IsStartOf(m: Message, id: nat) {
    m.StartBytes? && DecodeStart(m.req).Some? && DecodeStart(m.req).value.id == id
  }

  /** From message j up to k the stream is not started again, nor lost to age or displacement. */
  ghost predicate Undisturbed(msgs: seq<Message>, tables: seq<Contexts>, j: nat, k: nat, id: nat)
    requires k <= |msgs| < |tables|
  {
    forall i :: j <= i < k ==> !IsStartOf(msgs[i], id) && (id in tables[i] && !IsChunkOf(msgs[i], id) ==> id in tables[i + 1])
  }

  /** Where a stream stands, and what it delivered, after some of its chunks. */
  ghost predicate Stands(h: StartMsg, chunks: seq<Chunk>, u: Contexts, out: seq<Delivery>) {
    match OutcomeOf(Episode(h, chunks))
    case Live(c) => h.id in u && u[h.id] == c && out == []
    case Dropped => h.id !in u && out == []
    case Delivered(data) => h.id !in u && out == [Delivery(h.id, h.tag, data)]
  }

  lemma StandsChunk(h: StartMsg, chunks: seq<Chunk>, t: Contexts, out: seq<Delivery>, m: Message, r: Reply, u: Contexts)
    requires Stands(h, chunks, t, out) && h.totalChunks > 0 && TableStep(t, m, r, u) && IsChunkOf(m, h.id)
    ensures Stands(h, chunks + [DecodeChunk(m.req).value.chunk], u, out + r.out)
    ensures r.out == [] || r.out[0].id == h.id
  {
    hide DecodeStart, DecodeChunk, Consume, FeedAll;
    FeedOne(Fresh(h), chunks, DecodeChunk(m.req).value.chunk);
    assert out + [] == out;
    if h.id in t { ChunkTracks(t, m, r, u, h.id, Some(Episode(h, chunks))); }
  }

  lemma StandsOther(h: StartMsg, chunks: seq<Chunk>, t: Contexts, out: seq<Delivery>, m: Message, r: Reply, u: Contexts)
    requires Stands(h, chunks, t, out) && TableStep(t, m, r, u)
    requires !IsStartOf(m, h.id) && !IsChunkOf(m, h.id) && (h.id in t ==> h.id in u)
    ensures Stands(h, chunks, u, out) && (r.out == [] || r.out[0].id != h.id)
  {
    hide DecodeStart, DecodeChunk, Consume, FeedAll;
    if m.StartBytes? && Opening(m) && r.ack {
      var other := DecodeStart(m.req).value.id;
      assert h.id in u ==> h.id in u - {other} && (u - {other})[h.id] == u[h.id];
    }
  }

  /** From an accepted start on, in any traffic that does not disturb the stream, the table and
      the deliveries are exactly the outcome of the stream's own chunks. */
  lemma {:induction false} EpisodeOutcome(msgs: seq<Message>, replies: seq<Reply>, tables: seq<Contexts>, j: nat, k: nat, h: StartMsg)
    requires Chronicle(msgs, replies, tables) && j < k <= |msgs|
    requires Opens(msgs[j], replies[j], h.id) && DecodeStart(msgs[j].req).value == h
    requires Undisturbed(msgs, tables, j + 1, k, h.id)
    ensures Stands(h, ChunksOf(h.id, msgs[j + 1..k]), tables[k], DeliveriesOf(h.id, replies[j + 1..k]))
  {
    hide DecodeStart, DecodeChunk, TableStep, Stands, IsChunkOf, IsStartOf, ChunksOf, DeliveriesOf;
    if k == j + 1 {
      StandsFresh(h, tables[j], msgs[j], replies[j], tables[k]);
      assert msgs[j + 1..k] == [] && replies[j + 1..k] == [];
      NothingYet(h.id);
    } else {
      EpisodeOutcome(msgs, replies, tables, j, k - 1, h);
      LastOfSlice(h.id, msgs, replies, j + 1, k);
      var chunks, out, m := ChunksOf(h.id, msgs[j + 1..k - 1]), DeliveriesOf(h.id, replies[j + 1..k - 1]), msgs[k - 1];
      if IsChunkOf(m, h.id) {
        assert out + [] == out;
        StandsChunk(h, chunks, tables[k - 1], out, m, replies[k - 1], tables[k]);
      } else {
        StandsOther(h, chunks, tables[k - 1], out, m, replies[k - 1], tables[k]);
      }
    }
  }

  lemma LastOfSlice(id: nat, msgs: seq<Message>, replies: seq<Reply>, j: nat, k: nat)
    requires j < k <= |msgs| == |replies|
    ensures var m, chunks := msgs[k - 1], ChunksOf(id, msgs[j..k - 1]);
      ChunksOf(id, msgs[j..k]) == if IsChunkOf(m, id) then chunks + [DecodeChunk(m.req).value.chunk] else chunks
    ensures var r, out := replies[k - 1], DeliveriesOf(id, replies[j..k - 1]);
      DeliveriesOf(id, replies[j..k]) == if r.out != [] && r.out[0].id == id then out + r.out else out
  {
    hide DecodeChunk, ChunksOf, DeliveriesOf, IsChunkOf;
    LastChunk(id, msgs[j..k]);
    LastReply(id, replies[j..k]);
    assert msgs[j..k][..k - j - 1] == msgs[j..k - 1] && replies[j..k][..k - j - 1] == replies[j..k - 1];
  }

  lemma LastChunk(id: nat, ms: seq<Message>)
    requires ms != []
    ensures var m, chunks := ms[|ms| - 1], ChunksOf(id, ms[..|ms| - 1]);
      ChunksOf(id, ms) == if IsChunkOf(m, id) then chunks + [DecodeChunk(m.req).value.chunk] else chunks
  {
    hide DecodeChunk, IsChunkOf;
  }

  lemma LastReply(id: nat, rs: seq<Reply>)
    requires rs != []
    ensures var r, out := rs[|rs| - 1], DeliveriesOf(id, rs[..|rs| - 1]);
      DeliveriesOf(id, rs) == if r.out != [] && r.out[0].id == id then out + r.out else out
  {
  }

  lemma NothingYet(id: nat)
    ensures ChunksOf(id, []) == [] && DeliveriesOf(id, []) == []
  {
  }

  lemma StandsFresh(h: StartMsg, t: Contexts, m: Message, r: Reply, u: Contexts)
    requires TableStep(t, m, r, u) && Opens(m, r, h.id) && DecodeStart(m.req).value == h
    ensures Stands(h, [], u, [])
  {
  }

  // ---- A conforming sender ----

  /** The chunk messages a sender publishes, in the order a receiver handles them. */
  ghost predicate Carries(msgs: seq<Message>, id: nat, ps: seq<seq<byte>>, handled: seq<nat>) {
    Indices(ps, handled) && ChunksOf(id, msgs) == Arrivals(ps, handled)
  }

  /** What a sender writes decodes, for a stream within the wire's bounds. */
  lemma SenderIsUnderstood(data: seq<byte>, maxPayload: nat, id: nat, tag: nat, i: nat, junk: seq<byte>)
    requires maxPayload > 0 && 0 < |data| <= MAX_STREAM_SIZE && TotalChunks(|data|, maxPayload) <= MAX_STREAM_CHUNKS
    requires Sendable64(id) && Sendable32(tag)
    ensures var h := StartMsg(id, |data|, TotalChunks(|data|, maxPayload), tag);
      DecodeStart(EncodeStart(h) + junk) == Some(h) && Judge(h).Opens?
    ensures i < |Pieces(data, maxPayload)| ==>
      var m := ChunkMsg(id, ChunkOf(Pieces(data, maxPayload), i)); DecodeChunk(EncodeChunk(m) + junk) == Some(m)
  {
    hide EncodeStart, EncodeChunk, DecodeStart, DecodeChunk, Bound;
    var ps := Pieces(data, maxPayload);
    Widths();
    PieceCount(data, maxPayload);
    PiecesFlatten(data, maxPayload);
    assert ps != [];
    StartRoundTrip(StartMsg(id, |data|, |ps|, tag), junk);
    if i < |ps| {
      StartGrows(ps, i + 1, |ps|);
      ChunkRoundTrip(ChunkMsg(id, ChunkOf(ps, i)), junk);
    }
  }

  lemma {:induction false} StartGrows(ps: seq<seq<byte>>, i: nat, j: nat)
    requires i <= j <= |ps|
    ensures Start(ps, i) <= Start(ps, j)
  {
    if i < j { StartGrows(ps, i, j - 1); }
  }

  lemma {:induction false} ChunksPrefix(id: nat, ms: seq<Message>, m: nat)
    requires m < |ms| && IsChunkOf(ms[m], id)
    ensures var all, before := ChunksOf(id, ms), ChunksOf(id, ms[..m]);
      |before| < |all| && all[..|before|] == before && all[|before|] == DecodeChunk(ms[m].req).value.chunk
  {
    hide DecodeChunk;
    if m < |ms| - 1 {
      ChunksPrefix(id, ms[..|ms| - 1], m);
      assert ms[..|ms| - 1][..m] == ms[..m];
    }
  }

  lemma {:induction false} WindowPrefix(idxs: seq<nat>, n: nat, m: nat)
    requires WithinWindow(idxs, n) && m <= |idxs|
    ensures WithinWindow(idxs[..m], n)
  {
    hide Covered, Admissible;
    if m < |idxs| {
      WindowPrefix(idxs[..|idxs| - 1], n, m);
      assert idxs[..|idxs| - 1][..m] == idxs[..m];
    } else {
      assert idxs[..m] == idxs;
    }
  }

  /** The start announces what the sender cut. */
  ghost predicate Announces(h: StartMsg, ps: seq<seq<byte>>) {
    |ps| > 0 && h.totalSize == Start(ps, |ps|) && h.totalChunks == |ps|
  }

  /** A conforming chunk that fits the window is acknowledged. */
  lemma ConformingStep(t: Contexts, m: Message, r: Reply, u: Contexts, h: StartMsg, ps: seq<seq<byte>>, init: seq<nat>, last: nat)
    requires TableStep(t, m, r, u) && IsChunkOf(m, h.id) && Announces(h, ps) && Indices(ps, init) && last < |ps|
    requires DecodeChunk(m.req).value.chunk == ChunkOf(ps, last) && h.id in t
    requires FeedAll(Fresh(h), Arrivals(ps, init)) == Live(t[h.id]) && Admissible(Seen(init), last)
    ensures r.ack
  {
    hide DecodeChunk, Consume, FeedAll, Admissible, Start, Inv, Arrivals, ChunkOf;
    LastVerdict(ps, h.tag, init, last, t[h.id]);
    IndexOfChunk(ps, last);
    assert t[h.id].totalChunks == h.totalChunks;
    InRangeIsNotRejected(t[h.id], ChunkOf(ps, last));
  }

  lemma IndexOfChunk(ps: seq<seq<byte>>, i: nat)
    requires i < |ps|
    ensures ChunkOf(ps, i).index == i
  {
  }

  lemma InRangeIsNotRejected(c: Ctx, k: Chunk)
    requires |c.buf| == c.totalSize && k.index < c.totalChunks
    ensures !Consume(c, k).1.Reject?
  {
    hide Drain, Overlay;
  }

  /** The chunk that message i brings, and those that came before it. */
  lemma ArrivalAt(msgs: seq<Message>, j: nat, k: nat, id: nat, ps: seq<seq<byte>>, idxs: seq<nat>, i: nat)
    requires j < i < k <= |msgs| && IsChunkOf(msgs[i], id) && Carries(msgs[j + 1..k], id, ps, idxs)
    ensures var n := |ChunksOf(id, msgs[j + 1..i])|;
      && n < |idxs| && idxs[n] < |ps| && Indices(ps, idxs[..n]) && ChunksOf(id, msgs[j + 1..i]) == Arrivals(ps, idxs[..n])
      && DecodeChunk(msgs[i].req).value.chunk == ChunkOf(ps, idxs[n])
  {
    hide DecodeChunk, ChunksOf, ChunkOf;
    var ms := msgs[j + 1..k];
    ChunksPrefix(id, ms, i - j - 1);
    assert ms[..i - j - 1] == msgs[j + 1..i];
    var n := |ChunksOf(id, msgs[j + 1..i])|;
    assert Arrivals(ps, idxs)[..n] == Arrivals(ps, idxs[..n]);
  }

  lemma WindowAt(idxs: seq<nat>, n: nat, m: nat)
    requires WithinWindow(idxs, n) && m < |idxs|
    ensures WithinWindow(idxs[..m], n) && (Covered(Seen(idxs[..m]), n) || Admissible(Seen(idxs[..m]), idxs[m]))
  {
    hide Covered, Admissible;
    WindowPrefix(idxs, n, m);
    WindowPrefix(idxs, n, m + 1);
    assert idxs[..m + 1][..m] == idxs[..m];
  }

  /** Every chunk of a conforming stream that arrives while its stream is live is acknowledged, in any
      order within the window, repeats included; once it is complete, a chunk is an error. */
  lemma ConformingIsAcknowledged(msgs: seq<Message>, replies: seq<Reply>, tables: seq<Contexts>, j: nat, k: nat,
                                 h: StartMsg, ps: seq<seq<byte>>, idxs: seq<nat>, i: nat)
    requires Chronicle(msgs, replies, tables) && j < i < k <= |msgs| && IsChunkOf(msgs[i], h.id)
    requires Opens(msgs[j], replies[j], h.id) && DecodeStart(msgs[j].req).value == h && Undisturbed(msgs, tables, j + 1, k, h.id)
    requires Announces(h, ps) && Carries(msgs[j + 1..k], h.id, ps, idxs) && WithinWindow(idxs, |ps|)
    ensures var n := |ChunksOf(h.id, msgs[j + 1..i])|;
      && n < |idxs|
      && (replies[i].ack <==> h.id in tables[i]) && (h.id in tables[i] <==> !Covered(Seen(idxs[..n]), |ps|))
  {
    hide DecodeStart, DecodeChunk, FeedAll, Admissible, Start, Covered, Opens, TableStep, ChunksOf, DeliveriesOf, Arrivals, WithinWindow;
    ArrivalAt(msgs, j, k, h.id, ps, idxs, i);
    var n := |ChunksOf(h.id, msgs[j + 1..i])|;
    var init := idxs[..n];
    WindowAt(idxs, |ps|, n);
    EpisodeOutcome(msgs, replies, tables, j, i, h);
    ExactOutcome(ps, h.tag, init);
    if h.id in tables[i] {
      ConformingStep(tables[i], msgs[i], replies[i], tables[i + 1], h, ps, init, idxs[n]);
    } else {
      NoStreamIsAnError(tables[i], msgs[i], replies[i], tables[i + 1], h.id);
    }
  }

  lemma NoStreamIsAnError(t: Contexts, m: Message, r: Reply, u: Contexts, id: nat)
    requires TableStep(t, m, r, u) && IsChunkOf(m, id) && id !in t
    ensures !r.ack
  {
    hide DecodeChunk, Consume;
  }

  lemma ChronicleSizes(msgs: seq<Message>, replies: seq<Reply>, tables: seq<Contexts>)
    requires Chronicle(msgs, replies, tables)
    ensures |replies| == |msgs| && |tables| == |msgs| + 1
  {
  }

  /** End to end: every chunk of a pipelined send is acknowledged, and once all were waited for, either
      peer's handler has delivered exactly the sender's data, exactly once, under the sender's tag;
      and it has delivered nothing of that stream before. */
  lemma EndToEnd(data: seq<byte>, maxPayload: nat, h: StartMsg, run: seq<Pipe>, p: nat,
                 msgs: seq<Message>, replies: seq<Reply>, tables: seq<Contexts>, j: nat, k: nat)
    requires maxPayload > 0 && data != [] && h.totalSize == |data| && h.totalChunks == TotalChunks(|data|, maxPayload)
    requires StreamSender.IsRun(run) && p < |run| && run[0].n == h.totalChunks
    requires run[0].depth <= MAX_PARKED_CHUNKS + 1 || run[0].n <= MAX_PARKED_CHUNKS + 1
    requires Chronicle(msgs, replies, tables) && j < k <= |msgs|
    requires Opens(msgs[j], replies[j], h.id) && DecodeStart(msgs[j].req).value == h
    requires Undisturbed(msgs, tables, j + 1, k, h.id)
    requires Carries(msgs[j + 1..k], h.id, Pieces(data, maxPayload), run[p].handled)
    ensures forall i :: j < i < k && IsChunkOf(msgs[i], h.id) ==> replies[i].ack
    ensures run[p].drained == h.totalChunks ==> DeliveriesOf(h.id, replies[j + 1..k]) == [Delivery(h.id, h.tag, data)]
    ensures var out := DeliveriesOf(h.id, replies[j + 1..k]); out == [] || out == [Delivery(h.id, h.tag, data)]
  {
    hide DecodeStart, IsRun, Chronicle, Undisturbed, Covered, IsChunkOf;
    ChronicleSizes(msgs, replies, tables);
    var ps, handled := Pieces(data, maxPayload), run[p].handled;
    EpisodeOutcome(msgs, replies, tables, j, k, h);
    RoundTrip(data, maxPayload, h.tag, run, p);
    PieceCount(data, maxPayload);
    PiecesFlatten(data, maxPayload);
    OutcomeOfArrivals(ps, h.tag, handled);
    HandledWithinWindow(run, p);
    forall i | j < i < k && IsChunkOf(msgs[i], h.id) ensures replies[i].ack {
      ConformingIsAcknowledged(msgs, replies, tables, j, k, h, ps, handled, i);
      NotYetCovered(run, p, |ChunksOf(h.id, msgs[j + 1..i])|);
    }
  }

  /** No chunk of a send is handled twice, so before any of them the stream is incomplete. */
  lemma NotYetCovered(run: seq<Pipe>, p: nat, n: nat)
    requires StreamSender.IsRun(run) && p < |run| && n < |run[p].handled|
    ensures !Covered(Seen(run[p].handled[..n]), run[0].n)
  {
    HandledOnce(run, p);
    RunPipeInv(run, p);
    var handled := run[p].handled;
    assert handled[n] in handled && handled[n] !in Seen(handled[..n]);
  }
}
