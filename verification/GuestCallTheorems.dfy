/** What every run of the guest-call slot guarantees. */
module GuestCallTheorems {
  import opened Arithmetic
  import opened SlotTypes
  import opened GuestCall
  import opened GuestCallInvariant

  lemma {:induction false} RunInv(c: Config, run: seq<State>, k: nat)
    requires IsRun(c, run) && k < |run|
    ensures Inv(c, run[k])
  {
    if k == 0 {
      InitInv(c, run[0]);
    } else {
      RunInv(c, run, k - 1);
      assert Next(c, run[k - 1], run[k]);
      NextInv(c, run[k - 1], run[k]);
    }
  }

  // ---- Exclusive ownership ----

  ghost predicate OneSender(s: State) {
    exists i :: 0 <= i < |s.senders| && OwnsS(s.senders[i])
      && forall k :: 0 <= k < |s.senders| && OwnsS(s.senders[k]) ==> k == i
  }
  ghost predicate NoSender(s: State) { forall i :: 0 <= i < |s.senders| ==> !OwnsS(s.senders[i]) }
  ghost predicate OneProcessor(s: State, locked: bool) {
    exists j :: 0 <= j < |s.procs| && OwnsP(s.procs[j]) && Locked(s.procs[j]) == locked
      && forall k :: 0 <= k < |s.procs| && OwnsP(s.procs[k]) ==> k == j
  }
  ghost predicate NoProcessor(s: State) { forall j :: 0 <= j < |s.procs| ==> !OwnsP(s.procs[j]) }

  /** In every reachable state GUEST_BUSY has exactly one owning sender, BUSY exactly one
      serving processor, DONE exactly one publisher, and the resting states no owner. */
  lemma ExactlyOneOwner(c: Config, run: seq<State>, k: nat)
    requires IsRun(c, run) && k < |run|
    ensures var s := run[k];
      && (s.state == GUEST_BUSY ==> OneSender(s) && NoProcessor(s))
      && (s.state == BUSY ==> NoSender(s) && OneProcessor(s, false))
      && (s.state == DONE ==> NoSender(s) && OneProcessor(s, true))
      && (Resting(s.state) ==> NoSender(s) && NoProcessor(s))
  {
    RunInv(c, run, k);
    hide Memory, History;
    var s := run[k];
    if s.owner.BySender? { assert OwnsS(s.senders[s.owner.i]); }
    if s.owner.ByProcessor? { assert OwnsP(s.procs[s.owner.j]); }
  }

  // ---- Plain accesses never overlap ----

  /** Program points whose next step reads or writes the header, a buffer or the counter. */
  predicate TouchesS(pc: Sender) {
    match pc
    case SOwn | SWroteBuf(_) | SWroteSize(_) | SWroteType(_) | SWroteSeq(_, _) => true
    case SCheck(_, _) | SReadType(_, _) | SReadSize(_, _) | SReadBuf(_, _, _) => true
    case _ => false
  }
  predicate TouchesP(pc: Processor) {
    pc.PClaimed? || pc.PSized? || pc.PTyped? || pc.PRun? || pc.PLocked? || pc.PWroteOne?
  }

  lemma ClaimIgnoresMemory(c: Config, s: State, i: nat, t: State, m: Mem)
    requires i < |s.senders| && ClaimStep(c, s, i, t)
    ensures t.mem == s.mem && ClaimStep(c, s.(mem := m), i, t.(mem := m))
  {
  }

  lemma WaitIgnoresMemory(c: Config, s: State, i: nat, t: State, m: Mem)
    requires i < |s.senders| && WaitStep(c, s, i, t)
    ensures t.mem == s.mem && WaitStep(c, s.(mem := m), i, t.(mem := m))
  {
  }

  /** Every other step is independent of plain memory: it neither writes it nor behaves
      differently when it holds something else. */
  lemma OtherSenderStepsIgnoreMemory(c: Config, s: State, i: nat, t: State, m: Mem)
    requires i < |s.senders| && Sized(c, s.mem) && Sized(c, m)
    requires SenderStep(c, s, i, t) && !TouchesS(s.senders[i])
    ensures t.mem == s.mem && SenderStep(c, s.(mem := m), i, t.(mem := m))
  {
    hide SeqOf, ClaimStep, WaitStep;
    if ClaimStep(c, s, i, t) { ClaimIgnoresMemory(c, s, i, t, m); }
    else if WaitStep(c, s, i, t) { WaitIgnoresMemory(c, s, i, t, m); }
  }

  lemma OtherProcessorStepsIgnoreMemory(c: Config, s: State, j: nat, t: State, m: Mem)
    requires j < |s.procs| && Sized(c, s.mem) && Sized(c, m)
    requires ProcessorStep(c, s, j, t) && !TouchesP(s.procs[j])
    ensures t.mem == s.mem && ProcessorStep(c, s.(mem := m), j, t.(mem := m))
  {
  }

  /** No two threads are ever both about to touch plain memory, so accesses cannot overlap. */
  lemma AccessIsExclusive(c: Config, run: seq<State>, k: nat)
    requires IsRun(c, run) && k < |run|
    ensures var s := run[k];
      && (forall i, j :: 0 <= i < j < |s.senders| ==> !(TouchesS(s.senders[i]) && TouchesS(s.senders[j])))
      && (forall i, j :: 0 <= i < j < |s.procs| ==> !(TouchesP(s.procs[i]) && TouchesP(s.procs[j])))
      && (forall i, j :: 0 <= i < |s.senders| && 0 <= j < |s.procs| ==> !(TouchesS(s.senders[i]) && TouchesP(s.procs[j])))
  {
    RunInv(c, run, k);
    hide Memory, History;
  }

  /** Neither phase of the responder's publish ever finds the state word moved. */
  lemma PublishNeverFails(c: Config, run: seq<State>, k: nat)
    requires IsRun(c, run) && k < |run|
    ensures run[k].past.dropped == 0
    ensures forall j :: 0 <= j < |run[k].procs| ==>
      && (run[k].procs[j].PAnswer? ==> run[k].state == BUSY)
      && (run[k].procs[j].PWroteBoth? ==> run[k].state == DONE)
  {
    RunInv(c, run, k);
    hide Memory, EntryOk;
  }

  // ---- Whose answer a call returns ----

  /** Two transactions carry the same number only if they are a whole number of counter
      wraps apart. */
  lemma SameSeq(c: Config, x: int, y: int)
    requires c.Valid() && x <= y
    ensures SeqOf(c, x) == SeqOf(c, y) <==> ((y - x) * c.stride) % SEQ_MODULUS == 0
  {
    var a, d := c.seed + x * c.stride, (y - x) * c.stride;
    assert c.seed + y * c.stride == a + d by { assert y * c.stride == x * c.stride + (y - x) * c.stride; }
    ModSum(a, d, SEQ_MODULUS);
  }

  /** A call that returned bytes got, in full, what a handler left for some transaction of the
      slot whose request that handler saw in full. That transaction is the call's own, unless
      a stalled call met a later one exactly a whole number of counter wraps away. */
  lemma ReturnedAnswer(c: Config, run: seq<State>, k: nat, e: Entry)
    requires IsRun(c, run) && k < |run| && e in run[k].past.log && e.Returned?
    ensures var p := run[k].past;
      && e.tx in p.requests && p.requests[e.tx] == e.req
      && e.tx <= e.carrier < run[k].mem.nextTx && ((e.carrier - e.tx) * c.stride) % SEQ_MODULUS == 0
      && e.carrier in p.requests && e.carrier in p.answers
      && p.answers[e.carrier] == Handled(p.requests[e.carrier], e.bytes)
  {
    RunInv(c, run, k);
    var p := run[k].past;
    var n :| 0 <= n < |p.log| && p.log[n] == e;
    assert EntryOk(c, p, run[k].mem.nextTx, p.log[n]);
    SameSeq(c, e.tx, e.carrier);
  }

  /** So a call gets the handler's answer to its own request as long as the requests issued on
      the slot since then fit in one wrap of the 32-bit counter. */
  lemma OwnAnswer(c: Config, run: seq<State>, k: nat, e: Entry)
    requires IsRun(c, run) && k < |run| && e in run[k].past.log && e.Returned?
    requires (run[k].mem.nextTx - e.tx) * c.stride <= SEQ_MODULUS
    ensures var p := run[k].past; e.tx in p.answers && p.answers[e.tx] == Handled(e.req, e.bytes)
  {
    assert c.Valid() by { RunInv(c, run, k); }
    ReturnedAnswer(c, run, k, e);
    NoWrap(e.carrier - e.tx, c.stride, SEQ_MODULUS, run[k].mem.nextTx - e.tx);
  }

  /** A system error is always earned: the request did not fit, or the handler returned a size
      that does not, or the request itself carried the error type. */
  lemma SystemErrorIsEarned(c: Config, run: seq<State>, k: nat, e: Entry)
    requires IsRun(c, run) && k < |run| && e in run[k].past.log && e.SystemError?
    ensures var p := run[k].past;
      && e.carrier in p.requests && e.carrier in p.answers
      && match p.answers[e.carrier]
         case Refused => UAbs(p.requests[e.carrier].size) > c.maxReq
         case Overflowed(seen, returned) => seen == p.requests[e.carrier] && UAbs(returned) > c.maxResp
         case Handled(seen, _) => seen == p.requests[e.carrier] && seen.typ == SYSTEM_ERROR
  {
    RunInv(c, run, k);
    hide SeqOf, IsRun;
    var p := run[k].past;
    var n :| 0 <= n < |p.log| && p.log[n] == e;
    assert EntryOk(c, p, run[k].mem.nextTx, p.log[n]);
  }
}
