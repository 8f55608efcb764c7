/** The Go reassembler in its own form: stream contexts are objects the handler updates in place,
    the table is a map of pointers to them, and a context section, a map section and a retirement
    follow each other. Single-threaded here; ReassemblerThreads interleaves the sections. */
module GoReassembler {
  import opened Finite
  import opened SlotTypes
  import opened StreamSpec
  import opened StreamWire
  import opened ReassemblerSpec

  class StreamContext {
    const totalSize: nat
    const totalChunks: nat
    const tag: nat
    const buf: array<byte>
    var next: nat
    var offset: int
    var ooo: map<nat, Placed>
    var oooBytes: int
    var done: bool
    var dead: bool
    var lastSeq: nat
    var started: int

    ghost predicate Valid() { buf.Length == totalSize }

    ghost function View(): Ctx
      reads this, buf
    {
      Ctx(totalSize, totalChunks, tag, buf[..], next, offset, ooo, oooBytes)
    }

    /** Its table entry. */
    ghost function Entry(): GoStream
      reads this, buf
    {
      GoStream(View(), started, lastSeq)
    }

    constructor (h: StartMsg)
      ensures Valid() && fresh(buf) && !done && !dead
      ensures View() == Fresh(h)
    {
      totalSize, totalChunks, tag := h.totalSize, h.totalChunks, h.tag;
      buf := new byte[h.totalSize](_ => 0);
      next, offset, ooo, oooBytes := 0, 0, map[], 0;
      done, dead, lastSeq, started := false, false, 0, 0;
      new;
      assert buf[..] == Fresh(h).buf;
    }

    predicate CanFit(n: nat)
      reads this
    {
      offset + oooBytes + n <= totalSize
    }

    predicate IsInBounds(dst: nat, n: nat) {
      if dst > totalSize then false else n <= totalSize - dst
    }

    method Write(dst: nat, data: seq<byte>)
      requires Valid() && dst + |data| <= totalSize
      modifies buf
      ensures buf[..] == Overlay(old(buf[..]), dst, data)
    {
      forall i | 0 <= i < |data| { buf[dst + i] := data[i]; }
    }

    method AccountInOrder(n: nat)
      modifies this`offset, this`next
      ensures View() == old(View()).(offset := old(offset) + n, next := old(next) + 1)
    {
      offset := offset + n;
      next := next + 1;
    }

    /** False when the record bound trips; nothing is recorded then. */
    method NotePlaced(index: nat, dst: nat, n: nat) returns (ok: bool)
      modifies this`ooo, this`oooBytes
      ensures ok == (|old(ooo)| < MAX_PARKED_CHUNKS)
      ensures View() == if !ok then old(View())
        else old(View()).(ooo := old(ooo)[index := Placed(dst, n)], oooBytes := old(oooBytes) + n)
    {
      if |ooo| >= MAX_PARKED_CHUNKS { return false; }
      ooo := ooo[index := Placed(dst, n)];
      oooBytes := oooBytes + n;
      return true;
    }

    /** The drain loop: bookkeeping only, the bytes are in place already. */
    method DrainPlaced() returns (corrupt: bool)
      modifies this`next, this`offset, this`ooo, this`oooBytes
      ensures (View(), !corrupt) == Drain(old(View()))
    {
      hide Drain;
      corrupt := false;
      while !corrupt && next in ooo
        invariant if corrupt then Drain(old(View())) == (View(), false) else Drain(View()) == Drain(old(View()))
        decreases !corrupt, |ooo|
      {
        DrainTurn(View());
        var placed := ooo[next];
        ooo := ooo - {next};
        oooBytes := oooBytes - placed.size;
        if placed.dst != offset {
          corrupt := true;
        } else {
          AccountInOrder(placed.size);
        }
      }
      DrainTurn(View());
    }

    /** Everything done under the context lock for a chunk whose index is in range. */
    method ContextSection(k: Chunk) returns (v: Verdict)
      requires Valid() && k.index < totalChunks
      modifies this`next, this`offset, this`ooo, this`oooBytes, this`done, buf
      ensures old(done || dead) ==> v == Reject && unchanged(this) && unchanged(buf)
      ensures !old(done || dead) ==> (View(), v) == Consume(old(View()), k) && done == Retires(v)
    {
      hide Drain;
      if done || dead { return Reject; }
      if k.index < next { return Ack; }
      if k.index in ooo { return Ack; }
      var corrupt := false;
      if !CanFit(|k.payload|) || !IsInBounds(k.dst, |k.payload|) {
        corrupt := true;
      } else {
        Write(k.dst, k.payload);
        if k.index == next {
          if k.dst != offset {
            corrupt := true;
          } else {
            AccountInOrder(|k.payload|);
            corrupt := DrainPlaced();
          }
        } else {
          var ok := NotePlaced(k.index, k.dst, |k.payload|);
          corrupt := !ok;
        }
      }
      v := if corrupt then Drop else Ack;
      if !corrupt && next == totalChunks {
        v := if offset == totalSize then Deliver(buf[..]) else Drop;
      }
      if Retires(v) { done := true; }
    }
  }

  /** The table entries a map of contexts stands for. */
  ghost function Entries(m: map<nat, StreamContext>): map<nat, GoStream>
    reads m.Values, set c | c in m.Values :: c.buf
  {
    map id | id in m :: m[id].Entry()
  }

  lemma EntryOf(m: map<nat, StreamContext>, id: nat)
    requires id in m
    ensures id in Entries(m) && Entries(m)[id] == m[id].Entry()
  {
  }

  lemma EntriesKeys(m: map<nat, StreamContext>)
    ensures Entries(m).Keys == m.Keys
  {
  }

  ghost predicate Within(m: map<nat, StreamContext>, n: map<nat, StreamContext>) {
    forall id :: id in m ==> id in n && m[id] == n[id]
  }

  /** The table once all but the streams in `todo` were looked at. */
  ghost function PrunedBut(m: map<nat, GoStream>, todo: set<nat>, now: int, timeout: int): map<nat, GoStream> {
    map id | id in m && (id in todo || !GoExpired(now - m[id].started, timeout)) :: m[id]
  }

  lemma PruneTurn(m: map<nat, GoStream>, todo: set<nat>, id: nat, now: int, timeout: int)
    requires id in todo && id in m
    ensures var p := PrunedBut(m, todo, now, timeout);
      id in p && PrunedBut(m, todo - {id}, now, timeout) == if GoExpired(now - p[id].started, timeout) then p - {id} else p
  {
  }

  lemma PruneEnds(m: map<nat, GoStream>, now: int, timeout: int)
    ensures PrunedBut(m, m.Keys, now, timeout) == m && PrunedBut(m, {}, now, timeout) == GoPruned(m, now, timeout)
  {
  }

  lemma EntriesSize(m: map<nat, StreamContext>)
    ensures |Entries(m)| == |m|
  {
    EntriesKeys(m);
    assert |Entries(m)| == |Entries(m).Keys| && |m| == |m.Keys|;
  }

  ghost predicate Apart(c: StreamContext, m: map<nat, StreamContext>) {
    forall i :: i in m ==> m[i] != c && m[i].buf != c.buf
  }

  /** Live contexts, no two of which share memory. */
  ghost predicate Separate(m: map<nat, StreamContext>)
    reads m.Values
  {
    && (forall i :: i in m ==> m[i].Valid() && !m[i].done && !m[i].dead)
    && (forall i, j :: i in m && j in m && i != j ==> m[i] != m[j] && m[i].buf != m[j].buf)
  }

  lemma ShapedEntries(m: map<nat, StreamContext>, count: nat)
    requires Separate(m)
    ensures GoShaped(GoTable(Entries(m), count))
  {
  }

  lemma EntriesMinus(m: map<nat, StreamContext>, id: nat)
    ensures Entries(m - {id}) == Entries(m) - {id}
  {
  }

  class Reassembler {
    const timeout: int
    var streams: map<nat, StreamContext>
    var count: nat

    ghost function Repr(): set<object>
      reads this
    {
      streams.Values + set c | c in streams.Values :: c.buf
    }

    ghost predicate Valid()
      reads this, streams.Values
    {
      Separate(streams)
    }

    ghost function Table(): GoTable
      reads this, Repr()
    {
      GoTable(Entries(streams), count)
    }

    constructor (timeout: int)
      ensures Valid() && this.timeout == timeout && Table() == GoTable(map[], 0)
    {
      this.timeout, streams, count := timeout, map[], 0;
    }

    /** Marks a context so that a chunk still on its way to it is refused, and unlinks it. */
    method Reclaim(id: nat)
      requires Valid() && id in streams
      modifies this`streams, streams[id]
      ensures Valid() && streams == old(streams) - {id} && Entries(streams) == old(Entries(streams)) - {id}
      ensures old(streams)[id].dead
    {
      streams[id].dead := true;
      streams := streams - {id};
    }

    /** Drops one stream if it is past its age. */
    method PruneOne(id: nat, now: int)
      requires Valid() && id in streams
      modifies this`streams, streams[id]
      ensures Valid() && Within(streams, old(streams)) && old(streams).Keys - {id} <= streams.Keys
      ensures var m := old(Entries(streams));
        Entries(streams) == if GoExpired(now - m[id].started, timeout) then m - {id} else m
    {
      if timeout > 0 && now - streams[id].started > timeout { Reclaim(id); }
    }

    /** Drops every stream past its age. */
    method Prune(now: int)
      requires Valid()
      modifies this`streams, streams.Values
      ensures Valid() && Entries(streams) == GoPruned(old(Entries(streams)), now, timeout)
      ensures Within(streams, old(streams))
    {
      hide Separate, Entries, GoPruned, PrunedBut;
      ghost var entries := Entries(streams);
      EntriesKeys(streams);
      PruneEnds(entries, now, timeout);
      var ids := streams.Keys;
      while ids != {}
        invariant Valid() && ids <= streams.Keys && Within(streams, old(streams))
        invariant Entries(streams) == PrunedBut(entries, ids, now, timeout)
        decreases |ids|
      {
        var id :| id in ids;
        PruneTurn(entries, ids, id, now, timeout);
        ids := ids - {id};
        assert streams[id] in old(streams).Values;
        PruneOne(id, now);
      }
    }

    /** The least recently active stream. */
    method FindOldest() returns (oldest: nat)
      requires Valid() && streams != map[]
      ensures IsOldest(Entries(streams), oldest)
    {
      var ids := streams.Keys;
      oldest :| oldest in ids;
      while ids != {}
        invariant ids <= streams.Keys && oldest in streams
        invariant forall id :: id in streams && id !in ids ==> streams[oldest].lastSeq <= streams[id].lastSeq
        decreases |ids|
      {
        var id :| id in ids;
        ids := ids - {id};
        if streams[id].lastSeq < streams[oldest].lastSeq { oldest := id; }
      }
    }

    /** At the cap, a new id displaces the least recently active stream. */
    method MakeRoom(id: nat)
      requires Valid()
      modifies this`streams, streams.Values
      ensures Valid() && Within(streams, old(streams))
      ensures MakesRoom(old(Entries(streams)), id, Entries(streams))
    {
      hide Separate, Entries;
      EntriesKeys(streams);
      EntriesSize(streams);
      if id !in streams && |streams| >= MAX_CONCURRENT_STREAMS {
        var victim := FindOldest();
        assert streams[victim] in streams.Values;
        Reclaim(victim);
      }
    }

    /** Publishes a fresh context under an unused id. */
    method Link(id: nat, ctx: StreamContext, now: int)
      requires Valid() && id !in streams
      requires ctx.Valid() && !ctx.done && !ctx.dead && Apart(ctx, streams)
      modifies this`streams, ctx`lastSeq, ctx`started
      ensures Valid() && streams == old(streams)[id := ctx]
      ensures Entries(streams) == old(Entries(streams))[id := GoStream(old(ctx.View()), now, count)]
    {
      ctx.lastSeq, ctx.started := count, now;
      streams := streams[id := ctx];
    }

    /** Publishes a fresh context; the one it replaces is marked first. */
    method Install(id: nat, ctx: StreamContext, now: int)
      requires Valid()
      requires ctx.Valid() && !ctx.done && !ctx.dead && Apart(ctx, streams)
      modifies this`streams, streams.Values, ctx`lastSeq, ctx`started
      ensures Valid() && streams == old(streams)[id := ctx]
      ensures Entries(streams) == old(Entries(streams))[id := GoStream(old(ctx.View()), now, count)]
    {
      hide Separate, Entries;
      EntriesKeys(streams);
      if id in streams {
        assert streams[id] in streams.Values;
        Reclaim(id);
      }
      Link(id, ctx, now);
    }

    /** The map section of an accepted start. */
    method Open(h: StartMsg, now: int)
      requires Valid()
      modifies this`streams, this`count, streams.Values
      ensures Valid() && exists room ::
        MakesRoom(GoPruned(old(Entries(streams)), now, timeout), h.id, room) && Table() == GoOpened(old(count), room, h, now)
    {
      hide Separate, Entries, GoPruned, MakesRoom;
      var ctx := new StreamContext(h);
      assert Apart(ctx, streams);
      count := count + 1;
      Prune(now);
      MakeRoom(h.id);
      ghost var room := Entries(streams);
      Install(h.id, ctx, now);
      assert Table() == GoOpened(old(count), room, h, now);
    }

    /** The STREAM_START branch of the handler. */
    method HandleStart(req: seq<byte>, now: int) returns (r: Reply)
      requires Valid()
      modifies this`streams, this`count, streams.Values
      ensures Valid() && GoStart(old(Table()), req, now, timeout, Table(), r)
    {
      hide Separate, Entries, GoPruned, MakesRoom, GoOpened;
      var decoded := DecodeStart(req);
      if decoded.None? { return ERROR; }
      var h := decoded.value;
      if h.totalChunks > MAX_STREAM_CHUNKS || h.totalSize > MAX_STREAM_SIZE { return ERROR; }
      if h.totalChunks == 0 {
        if h.totalSize != 0 { return ERROR; }
        return Reply(true, [Delivery(h.id, h.tag, [])]);
      }
      Open(h, now);
      return ACK;
    }

    /** Consumes a chunk under its context's lock; the other streams do not notice. */
    method Section(id: nat, k: Chunk) returns (v: Verdict)
      requires Valid() && id in streams && k.index < streams[id].totalChunks
      modifies streams[id], streams[id].buf
      ensures Separate(if Retires(v) then streams - {id} else streams)
      ensures var s := old(streams[id].Entry());
        var (c, w) := Consume(s.ctx, k);
        v == w && Entries(streams) == old(Entries(streams))[id := GoStream(c, s.started, s.lastSeq)]
    {
      hide Consume;
      v := streams[id].ContextSection(k);
    }

    /** Marks activity, so that a stream still receiving is not the next one displaced. */
    method Stamp(id: nat)
      requires Valid() && id in streams
      modifies this`count, streams[id]
      ensures Valid() && count == old(count) + 1
      ensures Entries(streams) == old(Entries(streams))[id := old(streams[id].Entry()).(lastSeq := count)]
    {
      count := count + 1;
      streams[id].lastSeq := count;
    }

    /** Removes a finished context, unless a newer one took its id. */
    method Retire(id: nat, ctx: StreamContext)
      modifies this`streams
      ensures streams == if id in old(streams) && old(streams)[id] == ctx then old(streams) - {id} else old(streams)
    {
      if id in streams && streams[id] == ctx { streams := streams - {id}; }
    }

    /** The STREAM_CHUNK branch of the handler. */
    method HandleChunk(req: seq<byte>) returns (r: Reply)
      requires Valid()
      modifies this`streams, this`count, Repr()
      ensures Valid() && GoShaped(old(Table())) && GoChunk(old(Table()), req, Table(), r)
    {
      hide Separate, Entries, Consume;
      ShapedEntries(streams, count);
      EntriesKeys(streams);
      var decoded := DecodeChunk(req);
      if decoded.None? { return ERROR; }
      var m := decoded.value;
      if m.id !in streams { return ERROR; }
      var ctx := streams[m.id];
      EntryOf(streams, m.id);
      if m.chunk.index >= ctx.totalChunks { return ERROR; }
      Stamp(m.id);
      EntryOf(streams, m.id);
      var v := Section(m.id, m.chunk);
      if Retires(v) {
        EntriesMinus(streams, m.id);
        Retire(m.id, ctx);
        assert Entries(streams) == old(Entries(streams)) - {m.id};
      }
      if !Acknowledged(v) { return ERROR; }
      if v.Deliver? { return Reply(true, [Delivery(m.id, ctx.tag, v.data)]); }
      return ACK;
    }
  }
}
