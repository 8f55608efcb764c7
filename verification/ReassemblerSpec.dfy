/** The two reassemblers' handlers as functions of their table of streams and the next message:
    the Go handler with its activity counter and eviction, the C++ handler with its refusal. */
module ReassemblerSpec {
  import opened Finite
  import opened SlotTypes
  import opened StreamSpec
  import opened StreamWire

  /** A stream message as it arrives, with the clock reading taken while it is handled. */
  datatype Message = StartBytes(req: seq<byte>, now: int) | ChunkBytes(req: seq<byte>)

  datatype Delivery = Delivery(id: nat, tag: int, data: seq<byte>)

  /** An acknowledgement or a system error, and what reached the completion callback. */
  datatype Reply = Reply(ack: bool, out: seq<Delivery>)

  const ERROR: Reply := Reply(false, [])
  const ACK: Reply := Reply(true, [])

  /** What the bound checks make of a start before any table is consulted. */
  datatype Judgement = Refused | Empty | Opens

  function Judge(h: StartMsg): Judgement {
    if h.totalChunks > MAX_STREAM_CHUNKS || h.totalSize > MAX_STREAM_SIZE then Refused
    else if h.totalChunks == 0 then (if h.totalSize != 0 then Refused else Empty)
    else Opens
  }

  function Fresh(h: StartMsg): Ctx { NewCtx(h.totalSize, h.totalChunks, h.tag) }

  function ChunkReply(id: nat, tag: int, v: Verdict): Reply {
    Reply(Acknowledged(v), if v.Deliver? then [Delivery(id, tag, v.data)] else [])
  }

  // ---- Go ----

  datatype GoStream = GoStream(ctx: Ctx, started: int, lastSeq: nat)

  datatype GoTable = GoTable(streams: map<nat, GoStream>, count: nat)

  ghost predicate GoShaped(t: GoTable) {
    forall id :: id in t.streams ==> |t.streams[id].ctx.buf| == t.streams[id].ctx.totalSize
  }

  /** Ages are in nanoseconds; a non-positive timeout never expires anything. */
  predicate GoExpired(age: int, timeout: int) { timeout > 0 && age > timeout }

  function GoPruned(m: map<nat, GoStream>, now: int, timeout: int): map<nat, GoStream> {
    map id | id in m && !GoExpired(now - m[id].started, timeout) :: m[id]
  }

  ghost predicate IsOldest(m: map<nat, GoStream>, id: nat) {
    id in m && forall j :: j in m ==> m[id].lastSeq <= m[j].lastSeq
  }

  /** No two streams were last active at the same count. */
  ghost predicate Ranked(t: GoTable) {
    && (forall i, j :: i in t.streams && j in t.streams && t.streams[i].lastSeq == t.streams[j].lastSeq ==> i == j)
    && (forall i :: i in t.streams ==> t.streams[i].lastSeq <= t.count)
  }

  /** The table once room for `id` is made: at the cap a new stream displaces the oldest. */
  ghost predicate MakesRoom(m: map<nat, GoStream>, id: nat, room: map<nat, GoStream>) {
    if id !in m && |m| >= MAX_CONCURRENT_STREAMS then exists victim :: IsOldest(m, victim) && room == m - {victim}
    else room == m
  }

  function GoOpened(count: nat, room: map<nat, GoStream>, h: StartMsg, now: int): GoTable {
    GoTable(room[h.id := GoStream(Fresh(h), now, count + 1)], count + 1)
  }

  ghost predicate GoStart(t: GoTable, req: seq<byte>, now: int, timeout: int, u: GoTable, r: Reply) {
    match DecodeStart(req)
    case None => u == t && r == ERROR
    case Some(h) =>
      match Judge(h)
      case Refused => u == t && r == ERROR
      case Empty => u == t && r == Reply(true, [Delivery(h.id, h.tag, [])])
      case Opens =>
        r == ACK && exists room :: MakesRoom(GoPruned(t.streams, now, timeout), h.id, room) && u == GoOpened(t.count, room, h, now)
  }

  ghost predicate GoChunk(t: GoTable, req: seq<byte>, u: GoTable, r: Reply)
    requires GoShaped(t)
  {
    match DecodeChunk(req)
    case None => u == t && r == ERROR
    case Some(m) =>
      if m.id !in t.streams || m.chunk.index >= t.streams[m.id].ctx.totalChunks then u == t && r == ERROR
      else
        var s := t.streams[m.id];
        var (c, v) := Consume(s.ctx, m.chunk);
        && r == ChunkReply(m.id, s.ctx.tag, v)
        && u.count == t.count + 1
        && u.streams == if Retires(v) then t.streams - {m.id} else t.streams[m.id := GoStream(c, s.started, t.count + 1)]
  }

  /** One message through the Go handler. Which of several equally victim streams is displaced is
      the map iteration's choice; `Ranked` tables leave none. */
  ghost predicate GoStep(t: GoTable, m: Message, timeout: int, u: GoTable, r: Reply)
    requires GoShaped(t)
  {
    match m
    case StartBytes(req, now) => GoStart(t, req, now, timeout, u, r)
    case ChunkBytes(req) => GoChunk(t, req, u, r)
  }

  // ---- C++ ----

  datatype CppStream = CppStream(ctx: Ctx, started: int)

  type CppTable = map<nat, CppStream>

  ghost predicate CppShaped(t: CppTable) {
    forall id :: id in t ==> |t[id].ctx.buf| == t[id].ctx.totalSize
  }

  /** The age is first truncated to whole milliseconds. */
  predicate CppExpired(age: int, timeoutMs: nat) { age >= 0 && age / 1_000_000 > timeoutMs }

  function CppPruned(t: CppTable, now: int, timeoutMs: nat): CppTable {
    map id | id in t && !CppExpired(now - t[id].started, timeoutMs) :: t[id]
  }

  function CppStart(t: CppTable, req: seq<byte>, now: int, timeoutMs: nat): (CppTable, Reply) {
    match DecodeStart(req)
    case None => (t, ERROR)
    case Some(h) =>
      match Judge(h)
      case Refused => (t, ERROR)
      case Empty => (t, Reply(true, [Delivery(h.id, h.tag, [])]))
      case Opens =>
        var kept := CppPruned(t, now, timeoutMs);
        if |kept| >= MAX_CONCURRENT_STREAMS then (kept, ERROR)
        else (kept[h.id := CppStream(Fresh(h), now)], ACK)
  }

  function CppChunk(t: CppTable, req: seq<byte>): (CppTable, Reply)
    requires CppShaped(t)
  {
    match DecodeChunk(req)
    case None => (t, ERROR)
    case Some(m) =>
      if m.id !in t then (t, ERROR)
      else
        var s := t[m.id];
        var (c, v) := Consume(s.ctx, m.chunk);
        (if Retires(v) then t - {m.id} else t[m.id := CppStream(c, s.started)], ChunkReply(m.id, s.ctx.tag, v))
  }

  function CppStep(t: CppTable, m: Message, timeoutMs: nat): (CppTable, Reply)
    requires CppShaped(t)
  {
    match m
    case StartBytes(req, now) => CppStart(t, req, now, timeoutMs)
    case ChunkBytes(req) => CppChunk(t, req)
  }

  // ---- What every step keeps ----

  /** Every table the Go handler reaches stays within the cap and totally ordered by activity. */
  ghost predicate GoInv(t: GoTable) {
    GoShaped(t) && Ranked(t) && |t.streams| <= MAX_CONCURRENT_STREAMS
  }

  lemma GoStepInv(t: GoTable, m: Message, timeout: int, u: GoTable, r: Reply)
    requires GoInv(t) && GoStep(t, m, timeout, u, r)
    ensures GoInv(u)
  {
    match m
    case StartBytes(req, now) => GoStartInv(t, req, now, timeout, u, r);
    case ChunkBytes(req) => GoChunkInv(t, req, u, r);
  }

  lemma GoStartInv(t: GoTable, req: seq<byte>, now: int, timeout: int, u: GoTable, r: Reply)
    requires GoInv(t) && GoStart(t, req, now, timeout, u, r)
    ensures GoInv(u)
  {
    hide DecodeStart, GoOpened, GoPruned, GoInv, MakesRoom;
    if u != t {
      var h := DecodeStart(req).value;
      var kept := GoPruned(t.streams, now, timeout);
      var room :| MakesRoom(kept, h.id, room) && u == GoOpened(t.count, room, h, now);
      GoPrunedInv(t, now, timeout);
      MakesRoomInv(GoTable(kept, t.count), h.id, room);
      GoOpenedInv(GoTable(room, t.count), h, now);
    }
  }

  lemma GoPrunedInv(t: GoTable, now: int, timeout: int)
    requires GoInv(t)
    ensures GoInv(GoTable(GoPruned(t.streams, now, timeout), t.count))
  {
    SubmapSize(t.streams, GoPruned(t.streams, now, timeout));
  }

  lemma MakesRoomInv(t: GoTable, id: nat, room: map<nat, GoStream>)
    requires GoInv(t) && MakesRoom(t.streams, id, room)
    ensures GoInv(GoTable(room, t.count)) && (id in room || |room| < MAX_CONCURRENT_STREAMS)
  {
    if room != t.streams {
      var victim :| IsOldest(t.streams, victim) && room == t.streams - {victim};
      RemovalSize(t.streams, victim);
    }
  }

  lemma GoOpenedInv(t: GoTable, h: StartMsg, now: int)
    requires GoInv(t) && (h.id in t.streams || |t.streams| < MAX_CONCURRENT_STREAMS)
    ensures GoInv(GoOpened(t.count, t.streams, h, now))
  {
    UpdateSize(t.streams, h.id, GoStream(Fresh(h), now, t.count + 1));
  }

  lemma GoChunkInv(t: GoTable, req: seq<byte>, u: GoTable, r: Reply)
    requires GoInv(t) && GoChunk(t, req, u, r)
    ensures GoInv(u)
  {
    hide Consume, DecodeChunk;
    if u != t {
      var m := DecodeChunk(req).value;
      var s := t.streams[m.id];
      ConsumeKeepsShape(s.ctx, m.chunk);
      SubmapSize(t.streams, u.streams);
    }
  }

  lemma CppStepShaped(t: CppTable, m: Message, timeoutMs: nat)
    requires CppShaped(t) && |t| <= MAX_CONCURRENT_STREAMS
    ensures var u := CppStep(t, m, timeoutMs).0; CppShaped(u) && |u| <= MAX_CONCURRENT_STREAMS
  {
    hide Consume, DecodeChunk, DecodeStart;
    match m
    case StartBytes(req, now) =>
      var kept := CppPruned(t, now, timeoutMs);
      SubmapSize(t, kept);
      if DecodeStart(req).Some? {
        var h := DecodeStart(req).value;
        UpdateSize(kept, h.id, CppStream(Fresh(h), now));
      }
    case ChunkBytes(req) =>
      if DecodeChunk(req).Some? && DecodeChunk(req).value.id in t {
        var m := DecodeChunk(req).value;
        ConsumeKeepsShape(t[m.id].ctx, m.chunk);
        SubmapSize(t, CppStep(t, ChunkBytes(req), timeoutMs).0);
      }
  }
}
