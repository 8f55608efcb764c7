/** The Go reassembler under every interleaving of its critical sections. A map section holds the
    map mutex, a context section holds one context's mutex, and the two are never held together, so
    a context can be reclaimed while a chunk is on its way to it or already inside it. */
module ReassemblerThreads {
  import opened Finite
  import opened SlotTypes
  import opened StreamSpec
  import opened StreamWire
  import opened StreamSoundness
  import opened ReassemblerSpec

  /** A stream context, named by the order of its creation. `chunks` lists what its sections
      consumed, in lock order, and `delivered` what reached the callback. */
  datatype Record = Record(h: StartMsg, ctx: Ctx, done: bool, dead: bool, holder: Option<nat>, lastSeq: nat,
                           chunks: seq<Chunk>, delivered: seq<seq<byte>>)

  /** A handler thread: between messages; past its map section with a context and a chunk; inside
      the context's section; about to unlink a finished context; about to call back. */
  datatype Pc =
    | Idle
    | Found(c: nat, k: Chunk)
    | Inside(c: nat, k: Chunk)
    | Retiring(c: nat, v: Verdict)
    | Delivering(c: nat, data: seq<byte>)

  /** `activity` lists the contexts in the order map sections stamped them. */
  datatype State = State(recs: seq<Record>, streams: map<nat, nat>, count: nat, activity: seq<nat>, threads: map<nat, Pc>)

  // ---- Steps ----

  ghost predicate Init(s: State) {
    && s.recs == [] && s.streams == map[] && s.count == 0 && s.activity == []
    && forall t :: t in s.threads ==> s.threads[t].Idle?
  }

  /** Whether a context was last stamped no later than every other linked one. */
  ghost predicate LeastRecent(recs: seq<Record>, streams: map<nat, nat>, id: nat) {
    && id in streams && streams[id] < |recs|
    && forall j :: j in streams && streams[j] < |recs| ==> recs[streams[id]].lastSeq <= recs[streams[j]].lastSeq
  }

  /** The entries an opening start takes out of the map: those past their age, and at the cap the
      least recently active one unless the id is already there. */
  ghost predicate Reclaims(s: State, id: nat, expired: set<nat>, gone: set<nat>) {
    var kept := s.streams - expired;
    if id !in kept && |kept| >= MAX_CONCURRENT_STREAMS
    then exists victim :: LeastRecent(s.recs, kept, victim) && gone == expired + {victim}
    else gone == expired
  }

  /** Marks the contexts that lose their map entry. */
  ghost function Marked(recs: seq<Record>, streams: map<nat, nat>, gone: set<nat>): seq<Record> {
    seq(|recs|, c requires 0 <= c < |recs| =>
      if recs[c].h.id in gone && Names(recs, streams, c) then recs[c].(dead := true) else recs[c])
  }

  ghost function Opened(h: StartMsg, lastSeq: nat): Record {
    Record(h, Fresh(h), false, false, None, lastSeq, [], [])
  }

  ghost predicate StartSection(s: State, t: nat, h: StartMsg, expired: set<nat>, gone: set<nat>, s': State) {
    && t in s.threads && s.threads[t].Idle? && Judge(h).Opens? && Reclaims(s, h.id, expired, gone)
    && s' == State(
      Marked(s.recs, s.streams, gone + {h.id}) + [Opened(h, s.count + 1)],
      (s.streams - gone)[h.id := |s.recs|], s.count + 1, s.activity + [|s.recs|], s.threads)
  }

  /** The map section of a chunk: a miss or a bad index answers with an error at once. */
  ghost predicate LookupSection(s: State, t: nat, id: nat, k: Chunk, s': State) {
    && t in s.threads && s.threads[t].Idle?
    && if id !in s.streams || s.streams[id] >= |s.recs| || k.index >= s.recs[s.streams[id]].ctx.totalChunks then s' == s
       else
         var c := s.streams[id];
         s' == s.(recs := s.recs[c := s.recs[c].(lastSeq := s.count + 1)], count := s.count + 1,
                  activity := s.activity + [c], threads := s.threads[t := Found(c, k)])
  }

  /** Taking the context lock; a retired or reclaimed context refuses the chunk. */
  ghost predicate EnterSection(s: State, t: nat, s': State) {
    t in s.threads && s.threads[t].Found? && s.threads[t].c < |s.recs| &&
    var c := s.threads[t].c;
    s.recs[c].holder.None? &&
    if s.recs[c].done || s.recs[c].dead then s' == s.(threads := s.threads[t := Idle])
    else s' == s.(recs := s.recs[c := s.recs[c].(holder := Some(t))], threads := s.threads[t := Inside(c, s.threads[t].k)])
  }

  /** A record once its section consumed a chunk, and the verdict. */
  ghost function Consumed(r: Record, k: Chunk): (Record, Verdict)
    requires |r.ctx.buf| == r.ctx.totalSize
  {
    var (ctx, v) := Consume(r.ctx, k);
    (r.(ctx := ctx, done := Retires(v), holder := None, chunks := r.chunks + [k]), v)
  }

  /** Consuming the chunk and releasing the lock. */
  ghost predicate ConsumeSection(s: State, t: nat, s': State) {
    t in s.threads && s.threads[t].Inside? && s.threads[t].c < |s.recs| &&
    var c, k := s.threads[t].c, s.threads[t].k;
    |s.recs[c].ctx.buf| == s.recs[c].ctx.totalSize &&
    var (r, v) := Consumed(s.recs[c], k);
    s' == s.(recs := s.recs[c := r], threads := s.threads[t := if Retires(v) then Retiring(c, v) else Idle])
  }

  /** Compare and delete: the entry goes only if it is still this context. */
  ghost predicate RetireSection(s: State, t: nat, s': State) {
    && t in s.threads && s.threads[t].Retiring? && s.threads[t].c < |s.recs|
    && var c, v := s.threads[t].c, s.threads[t].v;
       var id := s.recs[c].h.id;
       s' == s.(streams := if id in s.streams && s.streams[id] == c then s.streams - {id} else s.streams,
                threads := s.threads[t := if v.Deliver? then Delivering(c, v.data) else Idle])
  }

  ghost predicate Callback(s: State, t: nat, s': State) {
    && t in s.threads && s.threads[t].Delivering? && s.threads[t].c < |s.recs|
    && var c := s.threads[t].c;
       s' == s.(recs := s.recs[c := s.recs[c].(delivered := s.recs[c].delivered + [s.threads[t].data])],
                threads := s.threads[t := Idle])
  }

  ghost predicate Next(s: State, s': State) {
    || (exists t, h, expired, gone :: StartSection(s, t, h, expired, gone, s'))
    || (exists t, id, k :: LookupSection(s, t, id, k, s'))
    || (exists t :: EnterSection(s, t, s'))
    || (exists t :: ConsumeSection(s, t, s'))
    || (exists t :: RetireSection(s, t, s'))
    || (exists t :: Callback(s, t, s'))
  }

  // ---- The invariant ----

  ghost predicate Names(recs: seq<Record>, streams: map<nat, nat>, c: nat) {
    c < |recs| && recs[c].h.id in streams && streams[recs[c].h.id] == c
  }

  /** The map holds contexts under their own ids, and no reclaimed one. */
  ghost predicate Unmarked(recs: seq<Record>, streams: map<nat, nat>) {
    forall id :: id in streams ==> streams[id] < |recs| && recs[streams[id]].h.id == id && !recs[streams[id]].dead
  }

  /** Every context neither finished nor reclaimed is in the map. */
  ghost predicate Kept(recs: seq<Record>, streams: map<nat, nat>) {
    forall c :: 0 <= c < |recs| && !recs[c].done && !recs[c].dead ==> Names(recs, streams, c)
  }

  ghost predicate Linked(recs: seq<Record>, streams: map<nat, nat>) {
    Unmarked(recs, streams) && Kept(recs, streams) && |streams| <= MAX_CONCURRENT_STREAMS
  }

  /** Threads name existing contexts, and a lock is held exactly by the thread inside. */
  ghost predicate Locked(recs: seq<Record>, threads: map<nat, Pc>) {
    && (forall t :: t in threads && !threads[t].Idle? ==> threads[t].c < |recs|)
    && (forall t :: t in threads && threads[t].Inside? ==> recs[threads[t].c].holder == Some(t) && !recs[threads[t].c].done)
    && (forall c :: 0 <= c < |recs| && recs[c].holder.Some? ==>
          recs[c].holder.value in threads && threads[recs[c].holder.value].Inside? && threads[recs[c].holder.value].c == c)
  }

  ghost function OutcomeOf(r: Record): Outcome { FeedAll(Fresh(r.h), r.chunks) }

  /** A context's state is the outcome of what its sections consumed, in lock order. */
  ghost predicate Told(r: Record) {
    && r.h.totalChunks > 0
    && (if r.done then !OutcomeOf(r).Live? else OutcomeOf(r) == Live(r.ctx))
    && (r.delivered == [] || (OutcomeOf(r) == Delivered(r.delivered[0]) && |r.delivered| == 1))
    && (r.delivered != [] ==> r.done)
  }

  ghost predicate Finishing(p: Pc, c: nat) { (p.Retiring? || p.Delivering?) && p.c == c }

  /** At most one thread finishes a context, and only before its delivery. */
  ghost predicate Sole(recs: seq<Record>, threads: map<nat, Pc>) {
    && (forall t, c :: t in threads && 0 <= c < |recs| && Finishing(threads[t], c) ==> recs[c].done && recs[c].delivered == [])
    && (forall t, u, c :: t in threads && u in threads && Finishing(threads[t], c) && Finishing(threads[u], c) ==> t == u)
  }

  /** A finishing thread carries the outcome of its context. */
  ghost predicate Carries(r: Record, p: Pc) {
    match p
    case Retiring(_, v) => if v.Deliver? then OutcomeOf(r) == Delivered(v.data) else !OutcomeOf(r).Delivered?
    case Delivering(_, data) => OutcomeOf(r) == Delivered(data)
    case _ => true
  }

  ghost predicate Finished(recs: seq<Record>, threads: map<nat, Pc>) {
    && Sole(recs, threads)
    && forall t :: t in threads && !threads[t].Idle? && threads[t].c < |recs| ==> Carries(recs[threads[t].c], threads[t])
  }

  /** A completed stream whose callback is still to come. */
  ghost predicate Owes(r: Record) { r.done && OutcomeOf(r).Delivered? && r.delivered == [] }

  ghost predicate Attended(threads: map<nat, Pc>, c: nat) { exists t :: t in threads && Finishing(threads[t], c) }

  /** Some thread is on its way to deliver every completed stream. */
  ghost predicate Owed(recs: seq<Record>, threads: map<nat, Pc>) {
    forall c :: 0 <= c < |recs| && Owes(recs[c]) ==> Attended(threads, c)
  }

  /** One more than the last position of c, or 0. */
  function LastUse(activity: seq<nat>, c: nat): (n: nat)
    ensures n <= |activity| && (n > 0 ==> activity[n - 1] == c)
  {
    if activity == [] then 0
    else if activity[|activity| - 1] == c then |activity|
    else LastUse(activity[..|activity| - 1], c)
  }

  ghost predicate Stamped(recs: seq<Record>, count: nat, activity: seq<nat>) {
    && count == |activity|
    && (forall c :: 0 <= c < |recs| ==> recs[c].lastSeq == LastUse(activity, c) > 0)
  }

  ghost predicate Inv(s: State) {
    && Linked(s.recs, s.streams) && Locked(s.recs, s.threads) && Finished(s.recs, s.threads) && Owed(s.recs, s.threads)
    && Stamped(s.recs, s.count, s.activity)
    && AllTold(s.recs)
  }

  ghost predicate AllTold(recs: seq<Record>) { forall c :: 0 <= c < |recs| ==> Told(recs[c]) }

  // ---- Every step keeps it ----

  /** Same stream, same progress: the records differ in their stamp or mark at most. */
  ghost predicate Keeps(r: Record, q: Record) { q == r.(lastSeq := q.lastSeq, dead := q.dead) }

  ghost predicate KeepsAll(recs: seq<Record>, recs': seq<Record>) {
    && |recs| <= |recs'|
    && (forall c :: 0 <= c < |recs| ==> Keeps(recs[c], recs'[c]))
    && (forall c :: |recs| <= c < |recs'| ==> recs'[c].holder.None?)
  }

  predicate Outside(p: Pc) { !p.Inside? }

  predicate Calm(p: Pc) { p.Idle? || p.Found? || p.Inside? }

  lemma LockedMove(recs: seq<Record>, recs': seq<Record>, threads: map<nat, Pc>, t: nat, p: Pc)
    requires Locked(recs, threads) && KeepsAll(recs, recs') && t in threads && Outside(threads[t]) && Outside(p)
    requires p.Idle? || p.c < |recs|
    ensures Locked(recs', threads[t := p])
  {
  }

  lemma FinishedMove(recs: seq<Record>, recs': seq<Record>, threads: map<nat, Pc>, t: nat, p: Pc)
    requires Finished(recs, threads) && Locked(recs, threads) && KeepsAll(recs, recs') && t in threads && Calm(threads[t]) && Calm(p)
    ensures Finished(recs', threads[t := p])
  {
    hide FeedAll;
  }

  lemma OwedMove(recs: seq<Record>, recs': seq<Record>, threads: map<nat, Pc>, t: nat, p: Pc)
    requires Owed(recs, threads) && |recs| <= |recs'| && t in threads && Calm(threads[t])
    requires forall c :: 0 <= c < |recs| && Owes(recs'[c]) ==> Owes(recs[c])
    requires forall c :: |recs| <= c < |recs'| ==> !recs'[c].done
    ensures Owed(recs', threads[t := p])
  {
    forall c | 0 <= c < |recs'| && Owes(recs'[c]) ensures Attended(threads[t := p], c) {
      var u :| u in threads && Finishing(threads[u], c);
      assert Finishing(threads[t := p][u], c);
    }
  }

  lemma OwesKeeps(recs: seq<Record>, recs': seq<Record>)
    requires KeepsAll(recs, recs')
    ensures forall c :: 0 <= c < |recs| && Owes(recs'[c]) ==> Owes(recs[c])
  {
    hide FeedAll;
  }

  lemma ToldKeeps(recs: seq<Record>, recs': seq<Record>)
    requires AllTold(recs) && KeepsAll(recs, recs') && |recs| == |recs'|
    ensures AllTold(recs')
  {
    hide FeedAll;
  }

  lemma LinkedKeeps(recs: seq<Record>, streams: map<nat, nat>, c: nat, r: Record)
    requires Linked(recs, streams) && c < |recs|
    requires r.h == recs[c].h && r.dead == recs[c].dead && (recs[c].done ==> r.done)
    ensures Linked(recs[c := r], streams)
  {
  }

  lemma StampedKeeps(recs: seq<Record>, count: nat, activity: seq<nat>, c: nat, r: Record)
    requires Stamped(recs, count, activity) && c < |recs| && r.lastSeq == recs[c].lastSeq
    ensures Stamped(recs[c := r], count, activity)
  {
  }

  lemma StampedOnce(recs: seq<Record>, count: nat, activity: seq<nat>, c: nat)
    requires Stamped(recs, count, activity) && c < |recs|
    ensures Stamped(recs[c := recs[c].(lastSeq := count + 1)], count + 1, activity + [c])
  {
    assert (activity + [c])[..|activity|] == activity;
  }

  lemma StampKeeps(recs: seq<Record>, c: nat, lastSeq: nat)
    requires c < |recs|
    ensures KeepsAll(recs, recs[c := recs[c].(lastSeq := lastSeq)])
  {
  }

  lemma LookupInv(s: State, t: nat, id: nat, k: Chunk, s': State)
    requires Inv(s) && LookupSection(s, t, id, k, s')
    ensures Inv(s')
  {
    hide Linked, Locked, Finished, Owed, Stamped, AllTold, KeepsAll;
    if s' != s {
      var c := s.streams[id];
      StampKeeps(s.recs, c, s.count + 1);
      StampedOnce(s.recs, s.count, s.activity, c);
      LinkedKeeps(s.recs, s.streams, c, s'.recs[c]);
      LockedMove(s.recs, s'.recs, s.threads, t, Found(c, k));
      FinishedMove(s.recs, s'.recs, s.threads, t, Found(c, k));
      OwesKeeps(s.recs, s'.recs);
      OwedMove(s.recs, s'.recs, s.threads, t, Found(c, k));
      ToldKeeps(s.recs, s'.recs);
    }
  }

  lemma LockedEnter(recs: seq<Record>, threads: map<nat, Pc>, t: nat, c: nat, k: Chunk)
    requires Locked(recs, threads) && t in threads && Outside(threads[t]) && c < |recs| && recs[c].holder.None? && !recs[c].done
    ensures Locked(recs[c := recs[c].(holder := Some(t))], threads[t := Inside(c, k)])
  {
  }

  lemma FinishedEnter(recs: seq<Record>, threads: map<nat, Pc>, t: nat, c: nat, k: Chunk)
    requires Finished(recs, threads) && t in threads && Calm(threads[t]) && c < |recs|
    ensures Finished(recs[c := recs[c].(holder := Some(t))], threads[t := Inside(c, k)])
  {
    hide FeedAll;
  }

  lemma ToldChanges(recs: seq<Record>, c: nat, r: Record)
    requires AllTold(recs) && c < |recs| && Told(r)
    ensures AllTold(recs[c := r])
  {
    hide Told;
  }

  lemma EnterInv(s: State, t: nat, s': State)
    requires Inv(s) && EnterSection(s, t, s')
    ensures Inv(s')
  {
    hide Linked, Locked, Finished, Owed, Stamped, AllTold, FeedAll;
    var c := s.threads[t].c;
    if s.recs[c].done || s.recs[c].dead {
      assert KeepsAll(s.recs, s.recs);
      LockedMove(s.recs, s.recs, s.threads, t, Idle);
      FinishedMove(s.recs, s.recs, s.threads, t, Idle);
      OwedMove(s.recs, s.recs, s.threads, t, Idle);
    } else {
      LinkedKeeps(s.recs, s.streams, c, s'.recs[c]);
      LockedEnter(s.recs, s.threads, t, c, s.threads[t].k);
      FinishedEnter(s.recs, s.threads, t, c, s.threads[t].k);
      OwedMove(s.recs, s'.recs, s.threads, t, s'.threads[t]);
      StampedKeeps(s.recs, s.count, s.activity, c, s'.recs[c]);
      assert Told(s.recs[c]) by { ToldAt(s.recs, c); }
      ToldChanges(s.recs, c, s'.recs[c]);
    }
  }

  lemma ToldAt(recs: seq<Record>, c: nat)
    requires AllTold(recs) && c < |recs|
    ensures Told(recs[c])
  {
  }

  lemma LockedLeave(recs: seq<Record>, threads: map<nat, Pc>, t: nat, r: Record, p: Pc)
    requires Locked(recs, threads) && t in threads && threads[t].Inside? && r.holder.None? && Outside(p)
    requires p.Idle? || p.c == threads[t].c
    ensures Locked(recs[threads[t].c := r], threads[t := p])
  {
  }

  lemma ToldConsume(r: Record, k: Chunk)
    requires Told(r) && !r.done && |r.ctx.buf| == r.ctx.totalSize
    ensures var (q, v) := Consumed(r, k);
      && Told(q) && r.delivered == [] && (v.Deliver? ==> OutcomeOf(q) == Delivered(v.data))
      && (!v.Deliver? ==> !OutcomeOf(q).Delivered?)
  {
    hide Consume;
    assert (r.chunks + [k])[..|r.chunks|] == r.chunks;
  }

  lemma SoleBegin(recs: seq<Record>, threads: map<nat, Pc>, t: nat, r: Record, v: Verdict)
    requires Sole(recs, threads) && Locked(recs, threads) && t in threads && threads[t].Inside?
    requires r.done == Retires(v) && r.delivered == []
    ensures var c := threads[t].c; Sole(recs[c := r], threads[t := if Retires(v) then Retiring(c, v) else Idle])
    ensures forall u :: u in threads ==> !Finishing(threads[u], threads[t].c)
  {
    var c := threads[t].c;
    assert forall u :: u in threads ==> !Finishing(threads[u], c);
  }

  lemma FinishedBegin(recs: seq<Record>, threads: map<nat, Pc>, t: nat, r: Record, v: Verdict)
    requires Finished(recs, threads) && Locked(recs, threads) && t in threads && threads[t].Inside?
    requires r.done == Retires(v) && r.delivered == []
    requires if v.Deliver? then OutcomeOf(r) == Delivered(v.data) else !OutcomeOf(r).Delivered?
    ensures var c := threads[t].c; Finished(recs[c := r], threads[t := if Retires(v) then Retiring(c, v) else Idle])
  {
    hide FeedAll, Sole, Locked;
    assert threads[t].c < |recs| by { InsideExists(recs, threads, t); }
    SoleBegin(recs, threads, t, r, v);
  }

  lemma InsideExists(recs: seq<Record>, threads: map<nat, Pc>, t: nat)
    requires Locked(recs, threads) && t in threads && !threads[t].Idle?
    ensures threads[t].c < |recs|
  {
  }

  lemma OwedBegin(recs: seq<Record>, threads: map<nat, Pc>, t: nat, r: Record, v: Verdict)
    requires Owed(recs, threads) && t in threads && threads[t].Inside? && threads[t].c < |recs| && r.done == Retires(v)
    ensures var c := threads[t].c; Owed(recs[c := r], threads[t := if Retires(v) then Retiring(c, v) else Idle])
  {
    hide FeedAll;
    var c := threads[t].c;
    var recs', threads' := recs[c := r], threads[t := if Retires(v) then Retiring(c, v) else Idle];
    forall d | 0 <= d < |recs'| && Owes(recs'[d]) ensures Attended(threads', d) {
      if d == c {
        assert Finishing(threads'[t], c);
      } else {
        var u :| u in threads && Finishing(threads[u], d);
        assert Finishing(threads'[u], d);
      }
    }
  }

  lemma ConsumeInv(s: State, t: nat, s': State)
    requires Inv(s) && ConsumeSection(s, t, s')
    ensures Inv(s')
  {
    var c, k := s.threads[t].c, s.threads[t].k;
    var (r, v) := Consumed(s.recs[c], k);
    assert !s.recs[c].done;
    hide Linked, Locked, Finished, Owed, Stamped, AllTold, FeedAll, Told, Consume;
    ToldAt(s.recs, c);
    ToldConsume(s.recs[c], k);
    LinkedKeeps(s.recs, s.streams, c, r);
    LockedLeave(s.recs, s.threads, t, r, s'.threads[t]);
    FinishedBegin(s.recs, s.threads, t, r, v);
    OwedBegin(s.recs, s.threads, t, r, v);
    StampedKeeps(s.recs, s.count, s.activity, c, r);
    ToldChanges(s.recs, c, r);
  }

  lemma LinkedRetire(recs: seq<Record>, streams: map<nat, nat>, c: nat)
    requires Linked(recs, streams) && c < |recs| && recs[c].done
    ensures var id := recs[c].h.id;
      Linked(recs, if id in streams && streams[id] == c then streams - {id} else streams)
  {
    var id := recs[c].h.id;
    SubmapSize(streams, streams - {id});
  }

  lemma FinishedRetire(recs: seq<Record>, threads: map<nat, Pc>, t: nat)
    requires Finished(recs, threads) && t in threads && threads[t].Retiring?
    ensures var c, v := threads[t].c, threads[t].v;
      Finished(recs, threads[t := if v.Deliver? then Delivering(c, v.data) else Idle])
  {
    hide FeedAll;
  }

  lemma OwedRetire(recs: seq<Record>, threads: map<nat, Pc>, t: nat)
    requires Owed(recs, threads) && Finished(recs, threads) && t in threads && threads[t].Retiring?
    ensures var c, v := threads[t].c, threads[t].v;
      Owed(recs, threads[t := if v.Deliver? then Delivering(c, v.data) else Idle])
  {
    hide FeedAll;
    var c, v := threads[t].c, threads[t].v;
    var threads' := threads[t := if v.Deliver? then Delivering(c, v.data) else Idle];
    forall d | 0 <= d < |recs| && Owes(recs[d]) ensures Attended(threads', d) {
      var u :| u in threads && Finishing(threads[u], d);
      assert Finishing(threads'[u], d);
    }
  }

  lemma RetireInv(s: State, t: nat, s': State)
    requires Inv(s) && RetireSection(s, t, s')
    ensures Inv(s')
  {
    var c := s.threads[t].c;
    assert Finishing(s.threads[t], c);
    hide Linked, Locked, Finished, Owed, Stamped, AllTold;
    LinkedRetire(s.recs, s.streams, c);
    assert KeepsAll(s.recs, s.recs);
    LockedMove(s.recs, s.recs, s.threads, t, s'.threads[t]);
    FinishedRetire(s.recs, s.threads, t);
    OwedRetire(s.recs, s.threads, t);
  }

  lemma LockedCallback(recs: seq<Record>, threads: map<nat, Pc>, t: nat, c: nat, r: Record)
    requires Locked(recs, threads) && t in threads && Outside(threads[t])
    requires c < |recs| && r.holder == recs[c].holder && r.done == recs[c].done
    ensures Locked(recs[c := r], threads[t := Idle])
  {
  }

  lemma FinishedCallback(recs: seq<Record>, threads: map<nat, Pc>, t: nat, r: Record)
    requires Finished(recs, threads) && t in threads && threads[t].Delivering? && threads[t].c < |recs|
    ensures var c := threads[t].c; Finished(recs[c := r], threads[t := Idle])
  {
    hide FeedAll;
    var c := threads[t].c;
    assert Finishing(threads[t], c);
    assert forall u :: u in threads && u != t ==> !Finishing(threads[u], c);
  }

  lemma OwedCallback(recs: seq<Record>, threads: map<nat, Pc>, t: nat, r: Record)
    requires Owed(recs, threads) && t in threads && threads[t].Delivering? && threads[t].c < |recs| && r.delivered != []
    ensures var c := threads[t].c; Owed(recs[c := r], threads[t := Idle])
  {
    hide FeedAll;
    var c := threads[t].c;
    var recs', threads' := recs[c := r], threads[t := Idle];
    forall d | 0 <= d < |recs'| && Owes(recs'[d]) ensures Attended(threads', d) {
      var u :| u in threads && Finishing(threads[u], d);
      assert Finishing(threads'[u], d);
    }
  }

  lemma CallbackInv(s: State, t: nat, s': State)
    requires Inv(s) && Callback(s, t, s')
    ensures Inv(s')
  {
    var c := s.threads[t].c;
    assert Finishing(s.threads[t], c);
    hide Linked, Locked, Finished, Owed, Stamped, AllTold, FeedAll;
    LinkedKeeps(s.recs, s.streams, c, s'.recs[c]);
    LockedCallback(s.recs, s.threads, t, c, s'.recs[c]);
    FinishedCallback(s.recs, s.threads, t, s'.recs[c]);
    OwedCallback(s.recs, s.threads, t, s'.recs[c]);
    StampedKeeps(s.recs, s.count, s.activity, c, s'.recs[c]);
    ToldAt(s.recs, c);
    ToldChanges(s.recs, c, s'.recs[c]);
  }

  lemma UnmarkedStart(recs: seq<Record>, streams: map<nat, nat>, h: StartMsg, gone: set<nat>, r: Record)
    requires Unmarked(recs, streams) && r.h == h && !r.dead
    ensures Unmarked(Marked(recs, streams, gone + {h.id}) + [r], (streams - gone)[h.id := |recs|])
  {
  }

  lemma KeptStart(recs: seq<Record>, streams: map<nat, nat>, h: StartMsg, gone: set<nat>, r: Record)
    requires Kept(recs, streams) && r.h == h
    ensures Kept(Marked(recs, streams, gone + {h.id}) + [r], (streams - gone)[h.id := |recs|])
  {
    var recs', streams' := Marked(recs, streams, gone + {h.id}) + [r], (streams - gone)[h.id := |recs|];
    forall c | 0 <= c < |recs'| && !recs'[c].done && !recs'[c].dead ensures Names(recs', streams', c) {
      assert c < |recs| ==> Names(recs, streams, c);
    }
  }

  lemma RoomForOne(s: State, h: StartMsg, expired: set<nat>, gone: set<nat>)
    requires |s.streams| <= MAX_CONCURRENT_STREAMS && Reclaims(s, h.id, expired, gone)
    ensures |(s.streams - gone)[h.id := |s.recs|]| <= MAX_CONCURRENT_STREAMS
  {
    var kept := s.streams - expired;
    UpdateSize(s.streams - gone, h.id, |s.recs|);
    if h.id !in kept && |kept| >= MAX_CONCURRENT_STREAMS {
      var victim :| LeastRecent(s.recs, kept, victim) && gone == expired + {victim};
      SubmapSize(s.streams, kept);
      RemovalSize(kept, victim);
      SubmapSize(kept - {victim}, s.streams - gone);
    } else {
      SubmapSize(s.streams, kept);
    }
  }

  lemma StampedStart(recs: seq<Record>, marked: seq<Record>, count: nat, activity: seq<nat>, r: Record)
    requires Stamped(recs, count, activity) && |marked| == |recs| && r.lastSeq == count + 1
    requires forall c :: 0 <= c < |recs| ==> marked[c].lastSeq == recs[c].lastSeq
    ensures Stamped(marked + [r], count + 1, activity + [|recs|])
  {
    assert (activity + [|recs|])[..|activity|] == activity;
  }

  lemma StartInv(s: State, t: nat, h: StartMsg, expired: set<nat>, gone: set<nat>, s': State)
    requires Inv(s) && StartSection(s, t, h, expired, gone, s')
    ensures Inv(s')
  {
    hide Unmarked, Kept, Locked, Finished, Owed, Stamped, AllTold, Reclaims, Marked;
    var marked := Marked(s.recs, s.streams, gone + {h.id});
    var r := Opened(h, s.count + 1);
    RoomForOne(s, h, expired, gone);
    UnmarkedStart(s.recs, s.streams, h, gone, r);
    KeptStart(s.recs, s.streams, h, gone, r);
    MarkedKeeps(s.recs, s.streams, gone + {h.id}, r);
    assert s.threads[t := Idle] == s.threads;
    LockedMove(s.recs, s'.recs, s.threads, t, Idle);
    FinishedMove(s.recs, s'.recs, s.threads, t, Idle);
    OwesKeeps(s.recs, s'.recs);
    OwedMove(s.recs, s'.recs, s.threads, t, Idle);
    StampedStart(s.recs, marked, s.count, s.activity, r);
    ToldKeeps(s.recs, marked);
    ToldAppends(marked, r);
  }

  lemma MarkedKeeps(recs: seq<Record>, streams: map<nat, nat>, gone: set<nat>, r: Record)
    requires r.holder.None?
    ensures var marked := Marked(recs, streams, gone);
      |marked| == |recs| && KeepsAll(recs, marked) && KeepsAll(recs, marked + [r])
    ensures forall c :: 0 <= c < |recs| ==> Marked(recs, streams, gone)[c].lastSeq == recs[c].lastSeq
  {
  }

  lemma ToldAppends(recs: seq<Record>, r: Record)
    requires AllTold(recs) && r.h.totalChunks > 0 && r.ctx == Fresh(r.h) && r.chunks == [] && r.delivered == [] && !r.done
    ensures AllTold(recs + [r])
  {
  }

  lemma NextInv(s: State, s': State)
    requires Inv(s) && Next(s, s')
    ensures Inv(s')
  {
    hide Inv, StartSection, LookupSection, EnterSection, ConsumeSection, RetireSection, Callback;
    if t, h, expired, gone :| StartSection(s, t, h, expired, gone, s') { StartInv(s, t, h, expired, gone, s'); }
    else if t, id, k :| LookupSection(s, t, id, k, s') { LookupInv(s, t, id, k, s'); }
    else if t :| EnterSection(s, t, s') { EnterInv(s, t, s'); }
    else if t :| ConsumeSection(s, t, s') { ConsumeInv(s, t, s'); }
    else if t :| RetireSection(s, t, s') { RetireInv(s, t, s'); }
    else { var t :| Callback(s, t, s'); CallbackInv(s, t, s'); }
  }

  ghost predicate IsRun(run: seq<State>) {
    && |run| > 0 && Init(run[0])
    && forall k :: 0 <= k < |run| - 1 ==> Next(run[k], run[k + 1])
  }

  lemma {:induction false} RunInv(run: seq<State>, k: nat)
    requires IsRun(run) && k < |run|
    ensures Inv(run[k])
  {
    hide Next;
    if k > 0 {
      RunInv(run, k - 1);
      NextInv(run[k - 1], run[k]);
    }
  }

  // ---- Theorems ----

  /** In every interleaving a context delivers at most once, and then exactly the first arrivals
      among the chunks its sections consumed, in the order they took the lock. */
  lemma DeliversAtMostOnce(run: seq<State>, k: nat, c: nat)
    requires IsRun(run) && k < |run| && c < |run[k].recs|
    ensures var r := run[k].recs[c];
      |r.delivered| <= 1 && (r.delivered != [] ==> DeliveredAt(r.h.totalSize, r.h.totalChunks, r.chunks, r.delivered[0]))
  {
    hide IsRun, FeedAll, DeliveredAt;
    RunInv(run, k);
    var r := run[k].recs[c];
    ToldAt(run[k].recs, c);
    DeliveredIsFirstArrivals(r.h.totalSize, r.h.totalChunks, r.h.tag, r.chunks);
  }

  /** And exactly once: a context whose chunks complete it has delivered exactly that data, in every
      interleaving, as soon as no thread is still retiring or delivering it. */
  lemma DeliversExactlyOnce(run: seq<State>, k: nat, c: nat)
    requires IsRun(run) && k < |run| && c < |run[k].recs| && OutcomeOf(run[k].recs[c]).Delivered?
    ensures var s := run[k];
      s.recs[c].done && (s.recs[c].delivered == [OutcomeOf(s.recs[c]).data] || (s.recs[c].delivered == [] && Attended(s.threads, c)))
  {
    hide IsRun, FeedAll;
    RunInv(run, k);
    var r := run[k].recs[c];
    ToldAt(run[k].recs, c);
    assert r.delivered == [] ==> Owes(r);
    assert r.delivered != [] ==> r.delivered == [r.delivered[0]];
  }

  /** No stream is lost by accident: a context neither finished nor reclaimed is in the map under
      its id, so no retirement removes a newer context; and the map stays within its cap. */
  lemma LiveIsLinked(run: seq<State>, k: nat)
    requires IsRun(run) && k < |run|
    ensures |run[k].streams| <= MAX_CONCURRENT_STREAMS
    ensures forall c :: 0 <= c < |run[k].recs| && !run[k].recs[c].done && !run[k].recs[c].dead ==>
      run[k].recs[c].h.id in run[k].streams && run[k].streams[run[k].recs[c].h.id] == c
  {
    hide IsRun;
    RunInv(run, k);
  }

  /** Nothing but marks, stamps and the callback changed. */
  ghost predicate SameCore(r: Record, q: Record) {
    q.h == r.h && q.ctx == r.ctx && q.done == r.done && q.holder == r.holder && q.chunks == r.chunks && (r.dead ==> q.dead)
  }

  /** The thread inside context c consumed its chunk. */
  ghost predicate Absorbed(s: State, r: Record, q: Record) {
    && r.holder.Some? && r.holder.value in s.threads && s.threads[r.holder.value].Inside?
    && q.h == r.h && q.holder.None? && q.dead == r.dead && q.chunks == r.chunks + [s.threads[r.holder.value].k]
  }

  /** One step leaves a reclaimed context alone, thread inside included, or is that thread's. */
  ghost predicate Untouched(s: State, s': State, c: nat) {
    c < |s.recs| && c < |s'.recs| && SameCore(s.recs[c], s'.recs[c]) &&
    (s.recs[c].holder.Some? ==>
      var t := s.recs[c].holder.value; t in s.threads && t in s'.threads && s.threads[t].Inside? && s'.threads[t] == s.threads[t])
  }

  lemma MapStepCore(s: State, s': State, c: nat, t: nat)
    requires Inv(s) && c < |s.recs| && t in s.threads && Outside(s.threads[t])
    requires KeepsAll(s.recs, s'.recs) && (s.recs[c].dead ==> s'.recs[c].dead)
    requires forall u :: u in s.threads && u != t ==> u in s'.threads && s'.threads[u] == s.threads[u]
    ensures Untouched(s, s', c)
  {
    hide Linked, Finished, Owed, Stamped, AllTold;
  }

  lemma CoreStep(s: State, s': State, c: nat)
    requires Inv(s) && Next(s, s') && c < |s.recs| && s.recs[c].dead
    ensures c < |s'.recs| && (Untouched(s, s', c) || Absorbed(s, s.recs[c], s'.recs[c]))
  {
    hide Inv, KeepsAll, Reclaims, Marked, Consume;
    if t, h, expired, gone :| StartSection(s, t, h, expired, gone, s') {
      MarkedKeeps(s.recs, s.streams, gone + {h.id}, Opened(h, s.count + 1));
      MarkedStaysDead(s.recs, s.streams, gone + {h.id}, c);
      MapStepCore(s, s', c, t);
    } else if t, id, k :| LookupSection(s, t, id, k, s') {
      if s' == s { KeepsSelf(s.recs); } else { StampKeeps(s.recs, s.streams[id], s.count + 1); }
      MapStepCore(s, s', c, t);
    } else if t :| EnterSection(s, t, s') {
      EnterCore(s, s', c, t);
    } else if t :| ConsumeSection(s, t, s') {
      ConsumeCore(s, s', c, t);
    } else if t :| RetireSection(s, t, s') {
      KeepsSelf(s.recs);
      MapStepCore(s, s', c, t);
    } else {
      var t :| Callback(s, t, s');
      CallbackCore(s, s', c, t);
    }
  }

  lemma KeepsSelf(recs: seq<Record>)
    ensures KeepsAll(recs, recs)
  {
  }

  lemma MarkedStaysDead(recs: seq<Record>, streams: map<nat, nat>, gone: set<nat>, c: nat)
    requires c < |recs| && recs[c].dead
    ensures Marked(recs, streams, gone)[c].dead
  {
  }

  lemma EnterCore(s: State, s': State, c: nat, t: nat)
    requires Inv(s) && EnterSection(s, t, s') && c < |s.recs| && s.recs[c].dead
    ensures Untouched(s, s', c)
  {
    hide Linked, Finished, Owed, Stamped, AllTold;
  }

  lemma ConsumeCore(s: State, s': State, c: nat, t: nat)
    requires Inv(s) && ConsumeSection(s, t, s') && c < |s.recs|
    ensures c < |s'.recs| && (Untouched(s, s', c) || Absorbed(s, s.recs[c], s'.recs[c]))
  {
    hide Linked, Finished, Owed, Stamped, AllTold, Consume;
  }

  lemma CallbackCore(s: State, s': State, c: nat, t: nat)
    requires Inv(s) && Callback(s, t, s') && c < |s.recs|
    ensures Untouched(s, s', c)
  {
    hide Linked, Finished, Owed, Stamped, AllTold;
  }

  /** Where a context reclaimed in state s may stand later. */
  ghost predicate Spent(s: State, s': State, c: nat) {
    || Untouched(s, s', c)
    || (c < |s.recs| && c < |s'.recs| && s'.recs[c].dead && Absorbed(s, s.recs[c], s'.recs[c]))
  }

  /** A reclaimed context absorbs nothing more, in any continuation, except the chunk of a thread
      that was already inside its section when it was reclaimed. */
  lemma {:induction false} ReclaimedAbsorbsNothing(run: seq<State>, j: nat, k: nat, c: nat)
    requires IsRun(run) && j <= k < |run| && c < |run[j].recs| && run[j].recs[c].dead
    ensures c < |run[k].recs| && Spent(run[j], run[k], c)
  {
    hide Next, Inv;
    RunInv(run, k);
    if j == k {
      HolderIsInside(run[j], c);
    } else {
      ReclaimedAbsorbsNothing(run, j, k - 1, c);
      RunInv(run, k - 1);
      CoreStep(run[k - 1], run[k], c);
    }
  }

  lemma HolderIsInside(s: State, c: nat)
    requires Inv(s) && c < |s.recs|
    ensures Untouched(s, s, c)
  {
    hide Linked, Finished, Owed, Stamped, AllTold;
  }

  /** An opening start displaces a stream that is not past its age only for a new id at the cap, and
      only one, which was stamped before every other one kept: its last use in the order of map
      sections is the earliest. */
  lemma DisplacesLeastRecentlyActive(run: seq<State>, k: nat, t: nat, h: StartMsg, expired: set<nat>, gone: set<nat>, id: nat, other: nat)
    requires IsRun(run) && k + 1 < |run| && StartSection(run[k], t, h, expired, gone, run[k + 1])
    requires id in run[k].streams && id in gone - expired && other in run[k].streams && other !in gone
    ensures |run[k].streams - expired| >= MAX_CONCURRENT_STREAMS && h.id !in run[k].streams - expired && gone == expired + {id}
    ensures LastUse(run[k].activity, run[k].streams[id]) < LastUse(run[k].activity, run[k].streams[other])
  {
    hide IsRun, Inv, LastUse;
    RunInv(run, k);
    VictimIsOldest(run[k], h, expired, gone, id, other);
  }

  lemma VictimIsOldest(s: State, h: StartMsg, expired: set<nat>, gone: set<nat>, id: nat, other: nat)
    requires Inv(s) && Reclaims(s, h.id, expired, gone)
    requires id in s.streams && id in gone - expired && other in s.streams && other !in gone
    ensures |s.streams - expired| >= MAX_CONCURRENT_STREAMS && h.id !in s.streams - expired && gone == expired + {id}
    ensures LastUse(s.activity, s.streams[id]) < LastUse(s.activity, s.streams[other])
  {
    hide Kept, Locked, Finished, Owed, AllTold, LastUse;
    var kept := s.streams - expired;
    var victim :| LeastRecent(s.recs, kept, victim) && gone == expired + {victim};
    assert victim == id && other in kept;
    assert s.streams[id] != s.streams[other];
  }

  ghost predicate CanStep(s: State, t: nat) {
    exists s' :: EnterSection(s, t, s') || ConsumeSection(s, t, s') || RetireSection(s, t, s') || Callback(s, t, s')
  }

  /** No deadlock: a thread between two messages' ends can always go on, or waits for a context
      lock whose holder can. */
  lemma NoDeadlock(run: seq<State>, k: nat, t: nat)
    requires IsRun(run) && k < |run| && t in run[k].threads && !run[k].threads[t].Idle?
    ensures var s := run[k];
      CanStep(s, t) || (s.threads[t].Found? && s.threads[t].c < |s.recs| && s.recs[s.threads[t].c].holder.Some?
                        && CanStep(s, s.recs[s.threads[t].c].holder.value))
  {
    hide IsRun, Inv;
    RunInv(run, k);
    GoesOn(run[k], t);
    var c := run[k].threads[t].c;
    if run[k].threads[t].Found? && run[k].recs[c].holder.Some? {
      HolderIsInside(run[k], c);
      GoesOn(run[k], run[k].recs[c].holder.value);
    }
  }

  lemma GoesOn(s: State, t: nat)
    requires Inv(s) && t in s.threads && !s.threads[t].Idle?
    ensures s.threads[t].c < |s.recs|
    ensures CanStep(s, t) || (s.threads[t].Found? && s.recs[s.threads[t].c].holder.Some?)
  {
    hide Linked, Finished, Owed, Stamped, Consume;
    var c := s.threads[t].c;
    ToldAt(s.recs, c);
    var r := s.recs[c];
    match s.threads[t]
    case Found(_, k) =>
      if r.holder.None? {
        var s' := if r.done || r.dead then s.(threads := s.threads[t := Idle])
          else s.(recs := s.recs[c := r.(holder := Some(t))], threads := s.threads[t := Inside(c, k)]);
        assert EnterSection(s, t, s');
      }
    case Inside(_, k) =>
      var (q, v) := Consumed(r, k);
      assert ConsumeSection(s, t, s.(recs := s.recs[c := q], threads := s.threads[t := if Retires(v) then Retiring(c, v) else Idle]));
    case Retiring(_, v) =>
      var streams := if r.h.id in s.streams && s.streams[r.h.id] == c then s.streams - {r.h.id} else s.streams;
      assert RetireSection(s, t, s.(streams := streams, threads := s.threads[t := if v.Deliver? then Delivering(c, v.data) else Idle]));
    case Delivering(_, data) =>
      assert Callback(s, t, s.(recs := s.recs[c := r.(delivered := r.delivered + [data])], threads := s.threads[t := Idle]));
  }

  // ---- Every stream can run to its end ----

  function Last(run: seq<State>): State
    requires |run| > 0
  {
    run[|run| - 1]
  }

  lemma Extend(run: seq<State>, s: State) returns (longer: seq<State>)
    requires |run| > 0 && IsRun(run) && Next(Last(run), s)
    ensures |longer| > 0 && IsRun(longer) && Last(longer) == s
  {
    hide Next;
    longer := run + [s];
    assert forall k :: 0 <= k < |longer| - 1 ==> longer[k] == run[k] && Next(longer[k], longer[k + 1]);
  }

  /** What one stream alone, driven by one thread, has come to. */
  ghost predicate Alone(s: State, h: StartMsg, ks: seq<Chunk>) {
    && |s.recs| == 1 && s.threads == map[0 := Idle] && s.recs[0].h == h && s.recs[0].chunks == ks && s.recs[0].holder.None?
    && !s.recs[0].dead && Settled(s.recs[0], s.streams)
  }

  ghost predicate Settled(r: Record, streams: map<nat, nat>) {
    match OutcomeOf(r)
    case Live(ctx) => !r.done && r.ctx == ctx && r.delivered == [] && streams == map[r.h.id := 0]
    case Dropped => r.done && r.delivered == [] && streams == map[]
    case Delivered(data) => r.done && r.delivered == [data] && streams == map[]
  }

  lemma Opens(h: StartMsg) returns (run: seq<State>)
    requires Judge(h).Opens?
    ensures |run| > 0 && IsRun(run) && Alone(Last(run), h, [])
  {
    var s := State([], map[], 0, [], map[0 := Idle]);
    run := [s];
    var t := State([Opened(h, 1)], map[h.id := 0], 1, [0], map[0 := Idle]);
    assert Marked(s.recs, s.streams, {} + {h.id}) == [];
    assert s.streams - {} == map[];
    assert (s.streams - {})[h.id := 0] == map[h.id := 0];
    assert StartSection(s, 0, h, {}, {}, t);
    run := Extend(run, t);
  }

  /** A chunk for the live stream passes its three sections. */
  lemma Takes(run: seq<State>, h: StartMsg, ks: seq<Chunk>, k: Chunk) returns (longer: seq<State>)
    requires |run| > 0 && IsRun(run) && Alone(Last(run), h, ks) && FeedAll(Fresh(h), ks).Live? && k.index < h.totalChunks
    ensures |longer| > 0 && IsRun(longer) && Last(longer).threads.Keys == {0}
    ensures |Last(longer).recs| == 1 && Last(longer).streams == Last(run).streams
    ensures var r := Last(run).recs[0];
      && |r.ctx.buf| == r.ctx.totalSize
      && var (q, v) := Consumed(r, k);
         && Last(longer).recs[0] == q.(lastSeq := Last(longer).recs[0].lastSeq)
         && Last(longer).threads[0] == if Retires(v) then Retiring(0, v) else Idle
  {
    hide IsRun, Consume, FeedAll;
    var s := Last(run);
    var r := s.recs[0].(lastSeq := s.count + 1);
    var s1 := State([r], s.streams, s.count + 1, s.activity + [0], map[0 := Found(0, k)]);
    assert s.recs[0 := r] == [r] && s.threads[0 := Found(0, k)] == s1.threads;
    assert LookupSection(s, 0, h.id, k, s1);
    longer := Extend(run, s1);
    var s2 := s1.(recs := [r.(holder := Some(0))], threads := map[0 := Inside(0, k)]);
    assert s1.recs[0 := r.(holder := Some(0))] == s2.recs && s1.threads[0 := Inside(0, k)] == s2.threads;
    assert EnterSection(s1, 0, s2);
    longer := Extend(longer, s2);
    var (q, v) := Consumed(s2.recs[0], k);
    var s3 := s2.(recs := [q], threads := map[0 := if Retires(v) then Retiring(0, v) else Idle]);
    assert s2.recs[0 := q] == s3.recs && s2.threads[0 := if Retires(v) then Retiring(0, v) else Idle] == s3.threads;
    assert ConsumeSection(s2, 0, s3);
    longer := Extend(longer, s3);
  }

  /** Its thread retires the stream and delivers it. */
  lemma Finishes(run: seq<State>) returns (longer: seq<State>)
    requires |run| > 0 && IsRun(run) && |Last(run).recs| == 1 && Last(run).threads.Keys == {0}
    requires Last(run).threads[0].Retiring? && Last(run).threads[0].c == 0
    requires Last(run).streams == map[Last(run).recs[0].h.id := 0]
    ensures |longer| > 0 && IsRun(longer) && Last(longer).threads == map[0 := Idle] && Last(longer).streams == map[]
    ensures var s := Last(run); var v := s.threads[0].v;
      Last(longer).recs == if v.Deliver? then [s.recs[0].(delivered := s.recs[0].delivered + [v.data])] else s.recs
  {
    hide IsRun;
    var s := Last(run);
    var v := s.threads[0].v;
    var s1 := s.(streams := map[], threads := map[0 := if v.Deliver? then Delivering(0, v.data) else Idle]);
    assert s.streams - {s.recs[0].h.id} == map[];
    assert s.threads[0 := if v.Deliver? then Delivering(0, v.data) else Idle] == s1.threads;
    assert RetireSection(s, 0, s1);
    longer := Extend(run, s1);
    if v.Deliver? {
      var r := s.recs[0].(delivered := s.recs[0].delivered + [v.data]);
      var s2 := s1.(recs := [r], threads := map[0 := Idle]);
      assert s1.recs[0 := r] == [r] && s1.threads[0 := Idle] == s2.threads;
      assert Callback(s1, 0, s2);
      longer := Extend(longer, s2);
    }
  }

  lemma OneMore(run: seq<State>, h: StartMsg, ks: seq<Chunk>, k: Chunk) returns (longer: seq<State>)
    requires |run| > 0 && IsRun(run) && Alone(Last(run), h, ks) && FeedAll(Fresh(h), ks).Live? && k.index < h.totalChunks
    ensures |longer| > 0 && IsRun(longer) && Alone(Last(longer), h, ks + [k])
  {
    hide IsRun, FeedAll, Consume;
    var r := Last(run).recs[0];
    longer := Takes(run, h, ks, k);
    FeedOne(Fresh(h), ks, k);
    var (q, v) := Consumed(r, k);
    assert OutcomeOf(q) == Feed(Live(r.ctx), k);
    if Retires(v) {
      longer := Finishes(longer);
    } else {
      assert Last(longer).threads == map[0 := Idle];
    }
  }

  /** No chunk comes after the one that ends the stream, and every index is in range. */
  ghost predicate Runnable(h: StartMsg, ks: seq<Chunk>) {
    && (forall i :: 0 <= i < |ks| ==> ks[i].index < h.totalChunks)
    && (forall n :: 0 <= n < |ks| ==> FeedAll(Fresh(h), ks[..n]).Live?)
  }

  /** For every accepted start and every sequence of its chunks, some run consumes exactly these and
      leaves the stream exactly as they make it: in the map while live, delivered once when
      complete, gone otherwise. */
  lemma {:induction false} EveryStreamCanRun(h: StartMsg, ks: seq<Chunk>) returns (run: seq<State>)
    requires Judge(h).Opens? && Runnable(h, ks)
    ensures |run| > 0 && IsRun(run) && Alone(Last(run), h, ks)
    decreases |ks|
  {
    hide IsRun, FeedAll, Alone;
    if ks == [] {
      run := Opens(h);
    } else {
      var init, k := ks[..|ks| - 1], ks[|ks| - 1];
      assert forall n :: 0 <= n < |init| ==> init[..n] == ks[..n];
      run := EveryStreamCanRun(h, init);
      run := OneMore(run, h, init, k);
      assert init + [k] == ks;
    }
  }
}
