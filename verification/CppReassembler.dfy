/** The C++ reassembler: one mutex around a map that holds the stream contexts themselves, so a
    context is a value the handler updates through its map entry. Default configuration. */
module CppReassembler {
  import opened SlotTypes
  import opened StreamSpec
  import opened StreamWire
  import opened ReassemblerSpec

  /** The table once all but the streams in `todo` were looked at. */
  ghost function PrunedBut(t: CppTable, todo: set<nat>, now: int, timeoutMs: nat): CppTable {
    map id | id in t && (id in todo || !CppExpired(now - t[id].started, timeoutMs)) :: t[id]
  }

  lemma PruneTurn(t: CppTable, todo: set<nat>, id: nat, now: int, timeoutMs: nat)
    requires id in todo && id in t
    ensures var p := PrunedBut(t, todo, now, timeoutMs);
      id in p && PrunedBut(t, todo - {id}, now, timeoutMs) == if CppExpired(now - p[id].started, timeoutMs) then p - {id} else p
  {
  }

  lemma PruneEnds(t: CppTable, now: int, timeoutMs: nat)
    ensures PrunedBut(t, t.Keys, now, timeoutMs) == t && PrunedBut(t, {}, now, timeoutMs) == CppPruned(t, now, timeoutMs)
  {
  }

  class Reassembler {
    const timeoutMs: nat
    var streams: CppTable

    ghost predicate Valid()
      reads this
    {
      CppShaped(streams) && |streams| <= MAX_CONCURRENT_STREAMS
    }

    constructor (timeoutMs: nat)
      ensures Valid() && this.timeoutMs == timeoutMs && streams == map[]
    {
      this.timeoutMs, streams := timeoutMs, map[];
    }

    method PruneInternal(now: int)
      modifies this`streams
      ensures streams == CppPruned(old(streams), now, timeoutMs)
    {
      hide PrunedBut, CppPruned;
      PruneEnds(streams, now, timeoutMs);
      var ids := streams.Keys;
      while ids != {}
        invariant ids <= streams.Keys && streams.Keys <= old(streams).Keys
        invariant streams == PrunedBut(old(streams), ids, now, timeoutMs)
        decreases |ids|
      {
        var id :| id in ids;
        PruneTurn(old(streams), ids, id, now, timeoutMs);
        ids := ids - {id};
        var age := now - streams[id].started;
        if age >= 0 && age / 1_000_000 > timeoutMs { streams := streams - {id}; }
      }
    }

    /** Updates the entry of a live stream for one chunk. A dropped or delivered entry is erased
        by the caller. */
    method Update(id: nat, k: Chunk) returns (v: Verdict)
      requires Valid() && id in streams && k.index < streams[id].ctx.totalChunks
      modifies this`streams
      ensures var (c, w) := Consume(old(streams)[id].ctx, k);
        v == w && streams == old(streams)[id := CppStream(c, old(streams)[id].started)]
    {
      hide Drain;
      var ctx := streams[id].ctx;
      v := Ack;
      if k.index < ctx.next || k.index in ctx.ooo {
        assert streams == streams[id := CppStream(ctx, streams[id].started)];
        return;
      }
      var corrupt := false;
      if ctx.offset + ctx.oooBytes + |k.payload| > ctx.totalSize || k.dst > ctx.totalSize || |k.payload| > ctx.totalSize - k.dst {
        corrupt := true;
      } else {
        ctx := ctx.(buf := Overlay(ctx.buf, k.dst, k.payload));
        if k.index == ctx.next {
          if k.dst != ctx.offset {
            corrupt := true;
          } else {
            ctx := ctx.(offset := ctx.offset + |k.payload|, next := ctx.next + 1);
            ghost var from := ctx;
            while !corrupt && ctx.next in ctx.ooo
              invariant streams == old(streams)
              invariant if corrupt then Drain(from) == (ctx, false) else Drain(ctx) == Drain(from)
              decreases !corrupt, |ctx.ooo|
            {
              DrainTurn(ctx);
              var p := ctx.ooo[ctx.next];
              ctx := ctx.(ooo := ctx.ooo - {ctx.next}, oooBytes := ctx.oooBytes - p.size);
              if p.dst != ctx.offset {
                corrupt := true;
              } else {
                ctx := ctx.(offset := ctx.offset + p.size, next := ctx.next + 1);
              }
            }
            DrainTurn(ctx);
            DrainKeepsShape(from);
          }
        } else if |ctx.ooo| >= MAX_PARKED_CHUNKS {
          corrupt := true;
        } else {
          ctx := ctx.(ooo := ctx.ooo[k.index := Placed(k.dst, |k.payload|)], oooBytes := ctx.oooBytes + |k.payload|);
        }
      }
      streams := streams[id := streams[id].(ctx := ctx)];
      if corrupt {
        v := Drop;
      } else if ctx.next == ctx.totalChunks {
        v := if ctx.offset == ctx.totalSize then Deliver(ctx.buf) else Drop;
      }
    }

    method HandleStart(req: seq<byte>, now: int) returns (r: Reply)
      requires Valid()
      modifies this`streams
      ensures Valid() && (streams, r) == CppStart(old(streams), req, now, timeoutMs)
    {
      hide CppPruned, DecodeStart;
      CppStepShaped(streams, StartBytes(req, now), timeoutMs);
      var decoded := DecodeStart(req);
      if decoded.None? { return ERROR; }
      var h := decoded.value;
      if h.totalSize > MAX_STREAM_SIZE || h.totalChunks > MAX_STREAM_CHUNKS { return ERROR; }
      if h.totalChunks == 0 {
        if h.totalSize != 0 { return ERROR; }
        return Reply(true, [Delivery(h.id, h.tag, [])]);
      }
      PruneInternal(now);
      if |streams| >= MAX_CONCURRENT_STREAMS { return ERROR; }
      streams := streams[h.id := CppStream(Fresh(h), now)];
      return ACK;
    }

    method HandleChunk(req: seq<byte>) returns (r: Reply)
      requires Valid()
      modifies this`streams
      ensures Valid() && (streams, r) == CppChunk(old(streams), req)
    {
      hide DecodeChunk;
      CppStepShaped(streams, ChunkBytes(req), timeoutMs);
      var decoded := DecodeChunk(req);
      if decoded.None? { return ERROR; }
      var m := decoded.value;
      if m.id !in streams { return ERROR; }
      if m.chunk.index >= streams[m.id].ctx.totalChunks {
        assert streams == streams[m.id := CppStream(streams[m.id].ctx, streams[m.id].started)];
        return ERROR;
      }
      var tag := streams[m.id].ctx.tag;
      var v := Update(m.id, m.chunk);
      if Retires(v) {
        streams := streams - {m.id};
        assert streams == old(streams) - {m.id};
      }
      if !Acknowledged(v) { return ERROR; }
      if v.Deliver? { return Reply(true, [Delivery(m.id, tag, v.data)]); }
      return ACK;
    }
  }
}
