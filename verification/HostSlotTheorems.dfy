/** What every run of a host slot guarantees, whatever times out, panics or is stolen. */
module HostSlotTheorems {
  import opened SlotTypes
  import opened HostSlot
  import opened HostSlotInvariant

  /** Every response the host accepts is the worker's answer to the request of the same
      transaction: the handler saw exactly the published bytes and type, and the host gets
      exactly what the handler left. */
  lemma AcceptedResponse(c: Config, run: seq<State>, k: nat, e: Entry)
    requires IsRun(c, run) && k < |run| && e in run[k].past.log && e.Returned?
    ensures var p := run[k].past;
      && e.tx in p.requests && p.requests[e.tx] == e.req && e.tx in p.answers
      && match p.answers[e.tx]
         case Handled(seen, typ, reply) => seen == e.req && typ == e.typ && reply == e.bytes
         case Heartbeat => e.req.typ == HEARTBEAT_REQ && e.typ == HEARTBEAT_RESP && e.bytes == []
         case Shutdown => e.req.typ == SHUTDOWN && e.bytes == []
         case _ => false
  {
    RunInv(c, run, k);
    var p := run[k].past;
    var n :| 0 <= n < |p.log| && p.log[n] == e;
    assert EntryOk(p, p.log[n]);
  }

  /** The sequence-number mismatch branch and the second publish phase's failure branch are
      unreachable, and a system error always comes from the same transaction. */
  lemma NoViolation(c: Config, run: seq<State>, k: nat)
    requires IsRun(c, run) && k < |run|
    ensures var p := run[k].past;
      && p.broken == 0 && SeqMismatch !in p.log
      && forall e :: e in p.log && e.SystemError? ==>
           e.tx in p.requests && p.requests[e.tx] == e.req && e.tx in p.answers
           && (p.answers[e.tx].Handled? ==> p.answers[e.tx].seen == e.req && p.answers[e.tx].typ == SYSTEM_ERROR)
  {
    RunInv(c, run, k);
    var p := run[k].past;
    forall e | e in p.log ensures EntryOk(p, e) {
      var n :| 0 <= n < |p.log| && p.log[n] == e;
    }
  }

  ghost predicate Earned(p: Past, e: Entry)
    requires e.SystemError?
  {
    && e.tx in p.answers
    && (|| p.answers[e.tx].Panicked?
        || (p.answers[e.tx].Handled? && p.answers[e.tx].seen == e.req && p.answers[e.tx].typ == SYSTEM_ERROR))
  }

  /** No refusal is ever published, since the host publishes only requests that fit: a system error
      means that the handler of the same request panicked, or returned that type. */
  lemma SystemErrorIsEarned(c: Config, run: seq<State>, k: nat)
    requires IsRun(c, run) && k < |run|
    ensures var p := run[k].past;
      && (forall x :: x in p.answers ==> x in p.requests && WellFormed(c, p.requests[x]) && !p.answers[x].Refused?)
      && (forall e :: e in p.log && e.SystemError? ==> Earned(p, e))
      && (run[k].worker.WAnswer? && run[k].worker.ans.Refused? ==> run[k].state != GUEST_BUSY)
  {
    RunInv(c, run, k);
    var p := run[k].past;
    forall e | e in p.log ensures EntryOk(p, e) {
      var n :| 0 <= n < |p.log| && p.log[n] == e;
    }
  }

  predicate SameHeader(m: Mem, n: Mem) {
    m.msgSeq == n.msgSeq && m.msgType == n.msgType && m.reqSize == n.reqSize && m.respSize == n.respSize
  }

  ghost predicate Harmless(s: State, t: State) {
    && (!SameHeader(s.mem, t.mem) || (t.state == RESP_READY && s.state != RESP_READY) ==>
          LockedW(s.worker) && s.state == DONE && s.worker.tx == s.past.hdrTx && !OwnsH(s.host))
    && (t.mem.respBuf != s.mem.respBuf ==> !Reading(s.host))
    && t.mem.reqBuf == s.mem.reqBuf
  }

  lemma WatchIsHarmless(c: Config, s: State, t: State)
    requires Inv(c, s) && WatchStep(c, s, t)
    ensures Harmless(s, t)
  {
    hide Memory, Records, NoLostWakeup, SeqOf;
  }

  lemma HandleIsHarmless(c: Config, s: State, t: State)
    requires Inv(c, s) && HandleStep(c, s, t)
    ensures Harmless(s, t)
  {
    hide Memory, Records, NoLostWakeup, SeqOf;
  }

  lemma RespondIsHarmless(c: Config, s: State, t: State)
    requires Inv(c, s) && RespondStep(c, s, t)
    ensures Harmless(s, t)
  {
    hide Memory, Records, NoLostWakeup, SeqOf;
  }

  /** A late handler is harmless: the worker writes a header field or publishes only while the
      header still carries the transaction it claimed and the host has not given the slot a new
      one; it writes the response buffer only while the host is not reading it. */
  lemma LateHandlerIsHarmless(c: Config, run: seq<State>, k: nat)
    requires IsRun(c, run) && k < |run| - 1 && run[k + 1].worker != run[k].worker
    ensures Harmless(run[k], run[k + 1])
  {
    hide Inv, Harmless, Next, WatchStep, HandleStep, RespondStep;
    RunInv(c, run, k);
    var s, t := run[k], run[k + 1];
    WorkerMoved(c, s, t);
    if WatchStep(c, s, t) { WatchIsHarmless(c, s, t); }
    else if RespondStep(c, s, t) { RespondIsHarmless(c, s, t); }
    else { HandleIsHarmless(c, s, t); }
  }

  lemma WorkerMoved(c: Config, s: State, t: State)
    requires Next(c, s, t) && t.worker != s.worker
    ensures WatchStep(c, s, t) || HandleStep(c, s, t) || RespondStep(c, s, t)
  {
    hide WatchStep, HandleStep, RespondStep, SeqOf;
  }

  /** No doorbell is ever lost, in either direction: a parked worker whose request is published and
      whose host is past its flag check has its event set, and likewise a parked host. */
  lemma NoDoorbellIsLost(c: Config, run: seq<State>, k: nat)
    requires IsRun(c, run) && k < |run|
    ensures var s := run[k];
      && !(s.worker.WBlocked? && s.state == REQ_READY && !s.bells.reqEvent && !s.host.HPublished? && !s.host.HSignal?)
      && !(s.host.HBlocked? && s.state == RESP_READY && !s.bells.respEvent && !s.worker.WPublished? && !s.worker.WSignal?)
  {
    RunInv(c, run, k);
  }
}
