/** When the two peers' reassemblers agree. They are meant to be interchangeable; they are, except
    for a start that finds the C++ table full and for a stream whose age falls between the two
    expiry tests, and the theorems here say exactly that. */
module ReassemblerParity {
  import opened Arithmetic
  import opened Finite
  import opened SlotTypes
  import opened StreamSpec
  import opened StreamWire
  import opened ReassemblerSpec

  /** The tables hold the same streams, whatever their activity order. */
  ghost predicate Same(t: GoTable, c: CppTable) {
    && t.streams.Keys == c.Keys
    && forall id :: id in c ==> t.streams[id].ctx == c[id].ctx && t.streams[id].started == c[id].started
  }

  function Nanos(timeoutMs: nat): int { timeoutMs * 1_000_000 }

  /** The one peer drops a stream of this age and the other keeps it. */
  predicate OnEdge(age: int, timeoutMs: nat) {
    Nanos(timeoutMs) < age < Nanos(timeoutMs + 1)
  }

  /** The start opens a stream: it passes the bound checks and advertises chunks. */
  predicate Opening(m: Message) {
    m.StartBytes? && DecodeStart(m.req).Some? && Judge(DecodeStart(m.req).value).Opens?
  }

  ghost predicate AtCap(c: CppTable, m: Message, timeoutMs: nat) {
    Opening(m) && |CppPruned(c, m.now, timeoutMs)| >= MAX_CONCURRENT_STREAMS
  }

  /** Some other stream is on the edge when a start prunes. */
  ghost predicate AtEdge(c: CppTable, m: Message, timeoutMs: nat) {
    Opening(m) && exists id :: id in c && id != DecodeStart(m.req).value.id && OnEdge(m.now - c[id].started, timeoutMs)
  }

  lemma ExpiryTests(age: int, timeoutMs: nat)
    requires timeoutMs > 0
    ensures GoExpired(age, Nanos(timeoutMs)) <==> CppExpired(age, timeoutMs) || OnEdge(age, timeoutMs)
    ensures !(CppExpired(age, timeoutMs) && OnEdge(age, timeoutMs))
  {
  }

  // ---- One message ----

  lemma ChunkParity(t: GoTable, c: CppTable, req: seq<byte>, u: GoTable, r: Reply)
    requires GoInv(t) && CppShaped(c) && Same(t, c) && GoChunk(t, req, u, r)
    ensures Same(u, CppChunk(c, req).0) && r == CppChunk(c, req).1
  {
    hide DecodeChunk, Drain, Complete;
  }

  lemma PrunedSame(t: GoTable, c: CppTable, now: int, timeoutMs: nat, id: nat)
    requires Same(t, c) && timeoutMs > 0
    ensures GoPruned(t.streams, now, Nanos(timeoutMs)).Keys <= CppPruned(c, now, timeoutMs).Keys
    ensures Same(GoTable(GoPruned(t.streams, now, Nanos(timeoutMs)) - {id}, 0), CppPruned(c, now, timeoutMs) - {id})
      <==> !exists x :: x in c && x != id && OnEdge(now - c[x].started, timeoutMs)
  {
    var g, k := GoPruned(t.streams, now, Nanos(timeoutMs)), CppPruned(c, now, timeoutMs);
    forall x | x in c
      ensures x in g <==> x in k && !OnEdge(now - c[x].started, timeoutMs)
      ensures OnEdge(now - c[x].started, timeoutMs) ==> x in k
    {
      ExpiryTests(now - c[x].started, timeoutMs);
    }
    if x :| x in c && x != id && OnEdge(now - c[x].started, timeoutMs) {
      assert x in k - {id} && x !in g - {id};
    }
  }

  lemma StartParity(t: GoTable, c: CppTable, req: seq<byte>, now: int, timeoutMs: nat, u: GoTable, r: Reply)
    requires GoInv(t) && Same(t, c) && timeoutMs > 0 && GoStart(t, req, now, Nanos(timeoutMs), u, r)
    ensures var m := StartBytes(req, now);
      Same(u, CppStart(c, req, now, timeoutMs).0) && r == CppStart(c, req, now, timeoutMs).1
      <==> !AtCap(c, m, timeoutMs) && !AtEdge(c, m, timeoutMs)
  {
    hide DecodeStart, GoPruned, CppPruned;
    if Opening(StartBytes(req, now)) {
      var h := DecodeStart(req).value;
      var g, k := GoPruned(t.streams, now, Nanos(timeoutMs)), CppPruned(c, now, timeoutMs);
      PrunedSame(t, c, now, timeoutMs, h.id);
      if |k| < MAX_CONCURRENT_STREAMS {
        assert |g| <= |k| by { assert |g| == |g.Keys| && |k| == |k.Keys|; SubsetSize(g.Keys, k.Keys); }
        Reinserted(t, g, k, h, now);
      }
    }
  }

  lemma Reinserted(t: GoTable, g: map<nat, GoStream>, k: CppTable, h: StartMsg, now: int)
    ensures Same(GoOpened(t.count, g, h, now), k[h.id := CppStream(Fresh(h), now)])
      <==> Same(GoTable(g - {h.id}, 0), k - {h.id})
  {
    var u, v := GoOpened(t.count, g, h, now).streams, k[h.id := CppStream(Fresh(h), now)];
    assert u.Keys == (g - {h.id}).Keys + {h.id} && v.Keys == (k - {h.id}).Keys + {h.id};
    if Same(GoTable(u, t.count + 1), v) {
      assert (g - {h.id}).Keys == u.Keys - {h.id} && (k - {h.id}).Keys == v.Keys - {h.id};
      forall x | x in k && x != h.id ensures x in g && g[x].ctx == k[x].ctx && g[x].started == k[x].started {
        assert x in v && v[x] == k[x] && u[x] == g[x];
      }
    }
  }

  /** One message leaves the peers with the same reply, deliveries and streams exactly when it
      is not a start at the cap or at the expiry edge. */
  lemma ParityStep(t: GoTable, c: CppTable, m: Message, timeoutMs: nat, u: GoTable, r: Reply)
    requires GoInv(t) && CppShaped(c) && Same(t, c) && timeoutMs > 0 && GoStep(t, m, Nanos(timeoutMs), u, r)
    ensures Same(u, CppStep(c, m, timeoutMs).0) && r == CppStep(c, m, timeoutMs).1
      <==> !AtCap(c, m, timeoutMs) && !AtEdge(c, m, timeoutMs)
  {
    match m
    case StartBytes(req, now) => StartParity(t, c, req, now, timeoutMs, u, r);
    case ChunkBytes(req) => ChunkParity(t, c, req, u, r);
  }

  /** Even where they part, both deliver the same. */
  lemma SameDeliveries(t: GoTable, c: CppTable, m: Message, timeoutMs: nat, u: GoTable, r: Reply)
    requires GoInv(t) && CppShaped(c) && Same(t, c) && timeoutMs > 0 && GoStep(t, m, Nanos(timeoutMs), u, r)
    ensures r.out == CppStep(c, m, timeoutMs).1.out
  {
    hide DecodeStart;
    if m.ChunkBytes? { ChunkParity(t, c, m.req, u, r); }
  }

  // ---- Every message sequence ----

  /** A run of the Go handler from its empty table. */
  ghost predicate GoRun(msgs: seq<Message>, timeout: int, tables: seq<GoTable>, replies: seq<Reply>) {
    && |tables| == |msgs| + 1 && |replies| == |msgs| && tables[0] == GoTable(map[], 0)
    && forall k :: 0 <= k < |msgs| ==> GoShaped(tables[k]) && GoStep(tables[k], msgs[k], timeout, tables[k + 1], replies[k])
  }

  /** Every reachable Go table is within the cap and totally ordered by activity. */
  lemma {:induction false} GoRunInv(msgs: seq<Message>, timeout: int, tables: seq<GoTable>, replies: seq<Reply>, k: nat)
    requires GoRun(msgs, timeout, tables, replies) && k <= |msgs|
    ensures GoInv(tables[k])
  {
    hide GoStep;
    if k > 0 {
      GoRunInv(msgs, timeout, tables, replies, k - 1);
      GoStepInv(tables[k - 1], msgs[k - 1], timeout, tables[k], replies[k - 1]);
    }
  }

  function CppAfter(msgs: seq<Message>, timeoutMs: nat): (c: CppTable)
    ensures CppShaped(c) && |c| <= MAX_CONCURRENT_STREAMS
  {
    if msgs == [] then map[]
    else
      var before := CppAfter(msgs[..|msgs| - 1], timeoutMs);
      CppStepShaped(before, msgs[|msgs| - 1], timeoutMs);
      CppStep(before, msgs[|msgs| - 1], timeoutMs).0
  }

  function CppReply(msgs: seq<Message>, k: nat, timeoutMs: nat): Reply
    requires k < |msgs|
  {
    CppStep(CppAfter(msgs[..k], timeoutMs), msgs[k], timeoutMs).1
  }

  /** The peers answered message i alike and were left with the same streams. */
  ghost predicate Agreed(msgs: seq<Message>, timeoutMs: nat, tables: seq<GoTable>, replies: seq<Reply>, i: nat)
    requires i < |msgs| && |tables| == |msgs| + 1 && |replies| == |msgs|
  {
    Same(tables[i + 1], CppAfter(msgs[..i + 1], timeoutMs)) && replies[i] == CppReply(msgs, i, timeoutMs)
  }

  /** Message i is a start at the cap or at the expiry edge. */
  ghost predicate Parts(msgs: seq<Message>, timeoutMs: nat, i: nat)
    requires i < |msgs|
  {
    var c := CppAfter(msgs[..i], timeoutMs);
    AtCap(c, msgs[i], timeoutMs) || AtEdge(c, msgs[i], timeoutMs)
  }

  lemma AgreedStep(msgs: seq<Message>, timeoutMs: nat, tables: seq<GoTable>, replies: seq<Reply>, i: nat)
    requires timeoutMs > 0 && GoRun(msgs, Nanos(timeoutMs), tables, replies) && i < |msgs|
    requires Same(tables[i], CppAfter(msgs[..i], timeoutMs))
    ensures Agreed(msgs, timeoutMs, tables, replies, i) <==> !Parts(msgs, timeoutMs, i)
  {
    hide GoStep, CppStep, AtCap, AtEdge, GoInv, Same;
    GoRunInv(msgs, Nanos(timeoutMs), tables, replies, i);
    ParityStep(tables[i], CppAfter(msgs[..i], timeoutMs), msgs[i], timeoutMs, tables[i + 1], replies[i]);
    assert msgs[..i + 1][..i] == msgs[..i];
  }

  /** Over every message sequence the peers agree throughout if and only if no message of it is a
      start at the cap or at the expiry edge. */
  lemma {:induction false} Parity(msgs: seq<Message>, timeoutMs: nat, tables: seq<GoTable>, replies: seq<Reply>, k: nat)
    requires timeoutMs > 0 && GoRun(msgs, Nanos(timeoutMs), tables, replies) && k <= |msgs|
    ensures (forall i :: 0 <= i < k ==> Agreed(msgs, timeoutMs, tables, replies, i))
      <==> (forall i :: 0 <= i < k ==> !Parts(msgs, timeoutMs, i))
  {
    hide GoStep, CppStep, GoRun, Parts;
    GoRunStarts(msgs, timeoutMs, tables, replies);
    if k > 0 {
      Parity(msgs, timeoutMs, tables, replies, k - 1);
      if forall i :: 0 <= i < k - 1 ==> Agreed(msgs, timeoutMs, tables, replies, i) {
        if k == 1 {
          assert msgs[..0] == [];
        } else {
          assert Agreed(msgs, timeoutMs, tables, replies, k - 2);
        }
        AgreedStep(msgs, timeoutMs, tables, replies, k - 1);
      }
    }
  }

  lemma GoRunStarts(msgs: seq<Message>, timeoutMs: nat, tables: seq<GoTable>, replies: seq<Reply>)
    requires GoRun(msgs, Nanos(timeoutMs), tables, replies)
    ensures |tables| == |msgs| + 1 && |replies| == |msgs| && tables[0] == GoTable(map[], 0)
  {
  }

  // ---- What a peer can check ----

  function Openings(msgs: seq<Message>): nat {
    if msgs == [] then 0
    else Openings(msgs[..|msgs| - 1]) + if Opening(msgs[|msgs| - 1]) then 1 else 0
  }

  /** Every start arrives within one timeout of the reading `from`. */
  ghost predicate Prompt(msgs: seq<Message>, from: int, timeoutMs: nat) {
    forall i :: 0 <= i < |msgs| && msgs[i].StartBytes? ==> from <= msgs[i].now <= from + Nanos(timeoutMs)
  }

  ghost predicate StartedIn(c: CppTable, from: int, timeoutMs: nat) {
    forall id :: id in c ==> from <= c[id].started <= from + Nanos(timeoutMs)
  }

  lemma StepBounds(c: CppTable, m: Message, from: int, timeoutMs: nat)
    requires CppShaped(c) && StartedIn(c, from, timeoutMs) && (m.StartBytes? ==> from <= m.now <= from + Nanos(timeoutMs))
    ensures var u := CppStep(c, m, timeoutMs).0;
      StartedIn(u, from, timeoutMs) && |u| <= |c| + if Opening(m) then 1 else 0
  {
    hide DecodeStart, DecodeChunk, Consume;
    match m
    case StartBytes(req, now) =>
      if Opening(m) {
        var h, kept := DecodeStart(req).value, CppPruned(c, now, timeoutMs);
        SubmapSize(c, kept);
        UpdateSize(kept, h.id, CppStream(Fresh(h), now));
      }
    case ChunkBytes(req) =>
      SubmapSize(c, CppStep(c, m, timeoutMs).0);
  }

  lemma {:induction false} Bounds(msgs: seq<Message>, from: int, timeoutMs: nat)
    requires Prompt(msgs, from, timeoutMs)
    ensures var c := CppAfter(msgs, timeoutMs); StartedIn(c, from, timeoutMs) && |c| <= Openings(msgs)
  {
    hide CppStep;
    if msgs != [] {
      var before := msgs[..|msgs| - 1];
      Bounds(before, from, timeoutMs);
      StepBounds(CppAfter(before, timeoutMs), msgs[|msgs| - 1], from, timeoutMs);
    }
  }

  lemma {:induction false} OpeningsGrow(msgs: seq<Message>, i: nat)
    requires i < |msgs|
    ensures Openings(msgs[..i]) + (if Opening(msgs[i]) then 1 else 0) <= Openings(msgs)
  {
    var before := msgs[..|msgs| - 1];
    if i < |before| {
      OpeningsGrow(before, i);
      assert before[..i] == msgs[..i];
    }
  }

  /** Up to 1024 openings, all within one timeout, are answered alike by both peers, whatever
      else is sent between them. */
  lemma {:induction false} QuietParity(msgs: seq<Message>, from: int, timeoutMs: nat, tables: seq<GoTable>, replies: seq<Reply>)
    requires timeoutMs > 0 && GoRun(msgs, Nanos(timeoutMs), tables, replies)
    requires Prompt(msgs, from, timeoutMs) && Openings(msgs) <= MAX_CONCURRENT_STREAMS
    ensures forall i :: 0 <= i < |msgs| ==> Agreed(msgs, timeoutMs, tables, replies, i)
  {
    hide GoStep, CppStep, GoRun, Agreed, Parts, Prompt;
    forall i | 0 <= i < |msgs| ensures !Parts(msgs, timeoutMs, i) { QuietStep(msgs, from, timeoutMs, i); }
    GoRunStarts(msgs, timeoutMs, tables, replies);
    Parity(msgs, timeoutMs, tables, replies, |msgs|);
  }

  lemma QuietStep(msgs: seq<Message>, from: int, timeoutMs: nat, i: nat)
    requires Prompt(msgs, from, timeoutMs) && Openings(msgs) <= MAX_CONCURRENT_STREAMS && i < |msgs|
    ensures !Parts(msgs, timeoutMs, i)
  {
    hide CppStep, CppPruned;
    var c := CppAfter(msgs[..i], timeoutMs);
    Bounds(msgs[..i], from, timeoutMs);
    OpeningsGrow(msgs, i);
    if Opening(msgs[i]) { PrunedIsSmaller(c, msgs[i].now, timeoutMs); }
  }

  lemma PrunedIsSmaller(c: CppTable, now: int, timeoutMs: nat)
    ensures |CppPruned(c, now, timeoutMs)| <= |c|
  {
    SubmapSize(c, CppPruned(c, now, timeoutMs));
  }

  /** Starts of n distinct one-byte streams. */
  function Starts(n: nat): seq<Message> {
    seq(n, i requires 0 <= i => StartBytes(EncodeStart(StartMsg(i, 1, 1, 0)), 0))
  }

  lemma StartsDecode(n: nat, i: nat)
    requires i < n <= 0x1_0000_0000
    ensures DecodeStart(Starts(n)[i].req) == Some(StartMsg(i, 1, 1, 0)) && Opening(Starts(n)[i])
  {
    var h := StartMsg(i, 1, 1, 0);
    Widths();
    StartRoundTrip(h, []);
    assert EncodeStart(h) + [] == EncodeStart(h);
  }

  /** n streams, all started at reading 0. */
  ghost predicate Holds(c: CppTable, n: nat) {
    |c| == n && forall id :: id in c ==> id < n && c[id].started == 0
  }

  lemma HoldsUnpruned(c: CppTable, n: nat, timeoutMs: nat)
    requires Holds(c, n)
    ensures CppPruned(c, 0, timeoutMs) == c
  {
  }

  lemma FillTurn(c: CppTable, n: nat, m: Message, timeoutMs: nat)
    requires Holds(c, n) && n < MAX_CONCURRENT_STREAMS && CppShaped(c)
    requires Opening(m) && m.now == 0 && DecodeStart(m.req).value.id == n
    ensures Holds(CppStep(c, m, timeoutMs).0, n + 1)
  {
    hide DecodeStart, CppPruned;
    HoldsUnpruned(c, n, timeoutMs);
    UpdateSize(c, n, CppStream(Fresh(DecodeStart(m.req).value), 0));
  }

  lemma {:induction false} StartsFill(n: nat, timeoutMs: nat)
    requires n <= MAX_CONCURRENT_STREAMS
    ensures Holds(CppAfter(Starts(n), timeoutMs), n)
  {
    hide DecodeStart, EncodeStart, CppStep, Opening;
    if n > 0 {
      StartsFill(n - 1, timeoutMs);
      StartsDecode(n, n - 1);
      assert Starts(n)[..n - 1] == Starts(n - 1);
      FillTurn(CppAfter(Starts(n - 1), timeoutMs), n - 1, Starts(n)[n - 1], timeoutMs);
    }
  }

  /** The 1025th stream opened at once is where the peers part: Go displaces one, C++ refuses. */
  lemma CapIsReached(timeoutMs: nat)
    ensures Parts(Starts(MAX_CONCURRENT_STREAMS + 1), timeoutMs, MAX_CONCURRENT_STREAMS)
  {
    hide DecodeStart, EncodeStart, CppStep, CppPruned, CppAfter;
    var n := MAX_CONCURRENT_STREAMS;
    StartsFill(n, timeoutMs);
    StartsDecode(n + 1, n);
    assert Starts(n + 1)[..n] == Starts(n);
    HoldsUnpruned(CppAfter(Starts(n), timeoutMs), n, timeoutMs);
  }
}
