/** Which chunks get past the map section of the concurrent Go handler: only those in range for a
    linked context, and each of them counts as activity of its stream. */
module ReassemblerAdmission {
  import opened SlotTypes
  import opened StreamSpec
  import opened StreamWire
  import opened ReassemblerSpec
  import opened ReassemblerThreads

  /** Everything a context consumed, and everything on its way to one, is in range for its stream. */
  ghost predicate InRange(r: Record) {
    && r.ctx.totalChunks == r.h.totalChunks && |r.ctx.buf| == r.ctx.totalSize
    && forall i :: 0 <= i < |r.chunks| ==> r.chunks[i].index < r.h.totalChunks
  }

  predicate Carried(recs: seq<Record>, p: Pc) {
    p.Found? || p.Inside? ==> p.c < |recs| && p.k.index < recs[p.c].h.totalChunks
  }

  ghost predicate Admitted(s: State) {
    && (forall c :: 0 <= c < |s.recs| ==> InRange(s.recs[c]))
    && (forall t :: t in s.threads ==> Carried(s.recs, s.threads[t]))
  }

  lemma StartAdmits(s: State, t: nat, h: StartMsg, expired: set<nat>, gone: set<nat>, s': State)
    requires Admitted(s) && StartSection(s, t, h, expired, gone, s')
    ensures Admitted(s')
  {
    hide Reclaims, Names;
    forall c | 0 <= c < |s.recs| ensures s'.recs[c] == s.recs[c].(dead := s'.recs[c].dead) {}
  }

  lemma LookupAdmits(s: State, t: nat, id: nat, k: Chunk, s': State)
    requires Admitted(s) && LookupSection(s, t, id, k, s')
    ensures Admitted(s')
  {
  }

  lemma EnterAdmits(s: State, t: nat, s': State)
    requires Admitted(s) && EnterSection(s, t, s')
    ensures Admitted(s')
  {
  }

  lemma ConsumeAdmits(s: State, t: nat, s': State)
    requires Admitted(s) && ConsumeSection(s, t, s')
    ensures Admitted(s')
  {
    var c, k := s.threads[t].c, s.threads[t].k;
    ConsumeKeepsShape(s.recs[c].ctx, k);
    hide Consume;
    assert InRange(s.recs[c]) && InRange(s'.recs[c]);
  }

  lemma FinishAdmits(s: State, t: nat, s': State)
    requires Admitted(s) && (RetireSection(s, t, s') || Callback(s, t, s'))
    ensures Admitted(s')
  {
  }

  lemma AdmittedNext(s: State, s': State)
    requires Admitted(s) && Next(s, s')
    ensures Admitted(s')
  {
    hide Admitted, StartSection, LookupSection, EnterSection, ConsumeSection, RetireSection, Callback;
    if t, h, expired, gone :| StartSection(s, t, h, expired, gone, s') { StartAdmits(s, t, h, expired, gone, s'); }
    else if t, id, k :| LookupSection(s, t, id, k, s') { LookupAdmits(s, t, id, k, s'); }
    else if t :| EnterSection(s, t, s') { EnterAdmits(s, t, s'); }
    else if t :| ConsumeSection(s, t, s') { ConsumeAdmits(s, t, s'); }
    else {
      var t :| RetireSection(s, t, s') || Callback(s, t, s');
      FinishAdmits(s, t, s');
    }
  }

  /** No interleaving ever lets a context consume a chunk out of its range. */
  lemma {:induction false} NoStrayChunkIsConsumed(run: seq<State>, k: nat)
    requires IsRun(run) && k < |run|
    ensures Admitted(run[k])
  {
    hide Next;
    if k > 0 {
      NoStrayChunkIsConsumed(run, k - 1);
      AdmittedNext(run[k - 1], run[k]);
    }
  }

  /** Every chunk let past the map section makes its stream the most recently active. */
  lemma AdmissionIsActivity(run: seq<State>, k: nat, t: nat)
    requires IsRun(run) && k + 1 < |run| && t in run[k].threads && t in run[k + 1].threads
    requires run[k].threads[t].Idle? && !run[k + 1].threads[t].Idle?
    ensures run[k + 1].threads[t].Found?
    ensures run[k + 1].activity == run[k].activity + [run[k + 1].threads[t].c]
    ensures var c := run[k + 1].threads[t].c; c < |run[k + 1].recs| && run[k + 1].recs[c].lastSeq == run[k + 1].count
  {
    assert Next(run[k], run[k + 1]);
    hide IsRun, Reclaims, Marked, Consumed;
  }
}
