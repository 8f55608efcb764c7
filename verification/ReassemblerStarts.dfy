/** What a start is answered and which streams it costs, in numbers, and the order in which the Go
    handler would give streams up. */
module ReassemblerStarts {
  import opened Finite
  import opened SlotTypes
  import opened StreamSpec
  import opened StreamWire
  import opened ReassemblerSpec
  import opened ReassemblerParity

  /** A start both peers let past their bound checks: at most 1 GiB in at most 2^20 chunks, and no
      bytes without chunks. */
  predicate Lawful(h: StartMsg) {
    h.totalSize <= 0x4000_0000 && h.totalChunks <= 0x10_0000 && (h.totalChunks == 0 ==> h.totalSize == 0)
  }

  /** Go acknowledges exactly the lawful starts, delivers exactly the empty ones, and touches the
      table only for the others. */
  lemma GoStartIsAnswered(t: GoTable, req: seq<byte>, now: int, timeout: int, u: GoTable, r: Reply)
    requires GoStart(t, req, now, timeout, u, r)
    ensures r.ack <==> |req| >= 24 && Lawful(DecodeStart(req).value)
    ensures |req| < 24 ==> r.out == [] && u == t
    ensures |req| >= 24 ==>
      var h := DecodeStart(req).value;
      && r.out == (if r.ack && h.totalChunks == 0 then [Delivery(h.id, h.tag, [])] else [])
      && if r.ack && h.totalChunks > 0
         then h.id in u.streams && u.streams[h.id] == GoStream(NewCtx(h.totalSize, h.totalChunks, h.tag), now, u.count)
         else u == t
  {
    hide GoPruned, MakesRoom;
  }

  /** C++ also refuses a lawful start that finds 1024 streams left after pruning. */
  lemma CppStartIsAnswered(t: CppTable, req: seq<byte>, now: int, timeoutMs: nat)
    ensures var (u, r) := CppStart(t, req, now, timeoutMs);
      && (r.ack <==> && |req| >= 24 && Lawful(DecodeStart(req).value)
                     && (DecodeStart(req).value.totalChunks > 0 ==> |CppPruned(t, now, timeoutMs)| < 1024))
      && (|req| < 24 ==> r.out == [] && u == t)
      && (|req| >= 24 ==>
            var h := DecodeStart(req).value;
            && r.out == (if r.ack && h.totalChunks == 0 then [Delivery(h.id, h.tag, [])] else [])
            && if r.ack && h.totalChunks > 0
               then u == CppPruned(t, now, timeoutMs)[h.id := CppStream(NewCtx(h.totalSize, h.totalChunks, h.tag), now)]
               else u == t || u == CppPruned(t, now, timeoutMs))
  {
    hide CppPruned;
  }

  /** C++ keeps the streams younger than one millisecond past the timeout. */
  lemma CppKeeps(t: CppTable, now: int, timeoutMs: nat, id: nat)
    ensures id in CppPruned(t, now, timeoutMs) <==> id in t && now - t[id].started < (timeoutMs + 1) * 1_000_000
    ensures id in CppPruned(t, now, timeoutMs) ==> CppPruned(t, now, timeoutMs)[id] == t[id]
  {
  }

  // ---- Which streams a start costs ----

  /** The streams within their age: those at most `timeout` nanoseconds old, or all. */
  function WithinAge(t: GoTable, now: int, timeout: int): set<nat> {
    set id | id in t.streams && (timeout <= 0 || now - t.streams[id].started <= timeout)
  }

  lemma PrunedKeys(t: GoTable, now: int, timeout: int)
    ensures GoPruned(t.streams, now, timeout).Keys == WithinAge(t, now, timeout)
    ensures |GoPruned(t.streams, now, timeout)| == |WithinAge(t, now, timeout)|
  {
    var m := GoPruned(t.streams, now, timeout);
    assert m.Keys == WithinAge(t, now, timeout);
    assert |m| == |m.Keys|;
  }

  /** v was active less recently than every other stream in `kept`. */
  ghost predicate LeastActive(t: GoTable, kept: set<nat>, v: nat) {
    v in kept && v in t.streams && forall x :: x in kept && x in t.streams && x != v ==> t.streams[v].lastSeq < t.streams[x].lastSeq
  }

  lemma OldestIsLeastActive(t: GoTable, now: int, timeout: int, v: nat)
    requires Ranked(t) && IsOldest(GoPruned(t.streams, now, timeout), v)
    ensures LeastActive(t, WithinAge(t, now, timeout), v)
  {
    var m := GoPruned(t.streams, now, timeout);
    PrunedKeys(t, now, timeout);
    forall x | x in WithinAge(t, now, timeout) && x != v ensures t.streams[v].lastSeq < t.streams[x].lastSeq {
      assert x in m && m[v].lastSeq <= m[x].lastSeq;
    }
  }

  /** The streams left are the ones within their age, the new one, and all but the least active when
      there is no room for a new id. */
  ghost predicate Costs(t: GoTable, kept: set<nat>, id: nat, left: set<nat>) {
    if id in kept || |kept| < 1024 then left == kept + {id}
    else exists v :: LeastActive(t, kept, v) && left == kept - {v} + {id}
  }

  lemma RoomCosts(t: GoTable, now: int, timeout: int, id: nat, room: map<nat, GoStream>)
    requires Ranked(t) && MakesRoom(GoPruned(t.streams, now, timeout), id, room)
    ensures Costs(t, WithinAge(t, now, timeout), id, room.Keys + {id})
    ensures forall x :: x in room ==> x in WithinAge(t, now, timeout) && room[x] == t.streams[x]
  {
    var m, kept := GoPruned(t.streams, now, timeout), WithinAge(t, now, timeout);
    PrunedKeys(t, now, timeout);
    if id !in kept && |kept| >= 1024 {
      var v :| IsOldest(m, v) && room == m - {v};
      OldestIsLeastActive(t, now, timeout, v);
      assert room.Keys == kept - {v};
    }
  }

  /** An opening start keeps every other stream within its age, unchanged, except that a new id at
      1024 streams costs exactly one, active less recently than every other. */
  lemma OpeningCosts(t: GoTable, req: seq<byte>, now: int, timeout: int, u: GoTable, r: Reply)
    requires GoInv(t) && GoStart(t, req, now, timeout, u, r) && Opening(StartBytes(req, now))
    ensures var id, kept := DecodeStart(req).value.id, WithinAge(t, now, timeout);
      && Costs(t, kept, id, u.streams.Keys)
      && forall x :: x in u.streams && x != id ==> x in kept && u.streams[x] == t.streams[x]
  {
    hide DecodeStart, GoPruned, MakesRoom, Costs, WithinAge;
    var h := DecodeStart(req).value;
    var room :| MakesRoom(GoPruned(t.streams, now, timeout), h.id, room) && u == GoOpened(t.count, room, h, now);
    RoomCosts(t, now, timeout, h.id, room);
    assert u.streams.Keys == room.Keys + {h.id};
  }

  /** Only a start sets a stream's age: no chunk makes it younger, in either peer. */
  lemma ChunksDoNotRenew(t: GoTable, req: seq<byte>, u: GoTable, r: Reply, x: nat)
    requires GoShaped(t) && GoChunk(t, req, u, r) && x in u.streams
    ensures x in t.streams && u.streams[x].started == t.streams[x].started
  {
    hide DecodeChunk, Consume;
  }

  lemma CppChunksDoNotRenew(t: CppTable, req: seq<byte>, x: nat)
    requires CppShaped(t) && x in CppChunk(t, req).0
    ensures x in t && CppChunk(t, req).0[x].started == t[x].started
  {
    hide DecodeChunk, Consume;
  }

  // ---- The order of activity ----

  /** Message m starts stream id, or is a chunk in range for it. */
  ghost predicate Touches(t: GoTable, m: Message, id: nat) {
    match m
    case StartBytes(req, now) => Opening(m) && DecodeStart(req).value.id == id
    case ChunkBytes(req) =>
      && DecodeChunk(req).Some? && DecodeChunk(req).value.id == id && id in t.streams
      && DecodeChunk(req).value.chunk.index < t.streams[id].ctx.totalChunks
  }

  /** A touched stream becomes the most recently active; the others keep their place. */
  lemma TouchedIsNewest(t: GoTable, m: Message, timeout: int, u: GoTable, r: Reply, x: nat)
    requires GoInv(t) && GoStep(t, m, timeout, u, r) && x in u.streams
    ensures u.count >= t.count
    ensures if Touches(t, m, x) then u.streams[x].lastSeq == t.count + 1
            else x in t.streams && u.streams[x].lastSeq == t.streams[x].lastSeq <= t.count
  {
    hide DecodeStart, DecodeChunk, Consume;
    if m.StartBytes? && Opening(m) {
      var h := DecodeStart(m.req).value;
      var room :| MakesRoom(GoPruned(t.streams, m.now, timeout), h.id, room) && u == GoOpened(t.count, room, h, m.now);
    }
  }

  /** One more than the last message before k that touched stream id, or 0. */
  ghost function LastTouch(msgs: seq<Message>, tables: seq<GoTable>, k: nat, id: nat): nat
    requires k <= |msgs| < |tables|
  {
    if k == 0 then 0 else if Touches(tables[k - 1], msgs[k - 1], id) then k else LastTouch(msgs, tables, k - 1, id)
  }

  lemma {:induction false} LastTouchBound(msgs: seq<Message>, tables: seq<GoTable>, k: nat, id: nat)
    requires k <= |msgs| < |tables|
    ensures LastTouch(msgs, tables, k, id) <= k
  {
    hide Touches;
    if k > 0 { LastTouchBound(msgs, tables, k - 1, id); }
  }

  /** In every run the handler's order of activity is the order of last touches, so the stream it
      displaces is the one touched longest ago. */
  lemma {:induction false} ActivityIsLastTouch(msgs: seq<Message>, timeout: int, tables: seq<GoTable>, replies: seq<Reply>,
                                               k: nat, a: nat, b: nat)
    requires GoRun(msgs, timeout, tables, replies) && k <= |msgs| && a in tables[k].streams && b in tables[k].streams
    ensures tables[k].streams[a].lastSeq < tables[k].streams[b].lastSeq
      <==> LastTouch(msgs, tables, k, a) < LastTouch(msgs, tables, k, b)
  {
    hide GoStep, Touches;
    if k > 0 {
      GoRunInv(msgs, timeout, tables, replies, k - 1);
      var t, m, u, r := tables[k - 1], msgs[k - 1], tables[k], replies[k - 1];
      TouchedIsNewest(t, m, timeout, u, r, a);
      TouchedIsNewest(t, m, timeout, u, r, b);
      LastTouchBound(msgs, tables, k - 1, a);
      LastTouchBound(msgs, tables, k - 1, b);
      OneTouch(t, m, a, b);
      if !Touches(t, m, a) && !Touches(t, m, b) { ActivityIsLastTouch(msgs, timeout, tables, replies, k - 1, a, b); }
    }
  }

  lemma OneTouch(t: GoTable, m: Message, a: nat, b: nat)
    ensures Touches(t, m, a) && Touches(t, m, b) ==> a == b
  {
  }
}
