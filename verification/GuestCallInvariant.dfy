/** The inductive invariant of the guest-call slot and its preservation, step by step. */
module GuestCallInvariant {
  import opened SlotTypes
  import opened GuestCall

  /** Program points at which a sender owns the slot. */
  predicate OwnsS(pc: Sender) {
    match pc
    case SOwn | SWroteBuf(_) | SWroteSize(_) | SWroteType(_) | SWroteSeq(_, _) | SBumpedSeq(_, _) | SArmed(_, _) => true
    case SConsumed(_, _) | SCheck(_, _) | SReadType(_, _) | SReadSize(_, _) | SReadBuf(_, _, _) | SRelease => true
    case _ => false
  }

  /** Program points at which a processor owns the slot, and those under the publish lock. */
  predicate OwnsP(pc: Processor) { !pc.PIdle? && !pc.PSaw? && !pc.PBumped? }
  predicate Locked(pc: Processor) { pc.PLocked? || pc.PWroteOne? || pc.PWroteBoth? }

  /** Program points between publishing a request and learning its fate. */
  predicate InFlight(pc: Sender) {
    match pc
    case SWait(_, _) | SReady(_, _) | SReadyBumped(_, _) | SConsumed(_, _) | SLost(_, _) | STimedOut(_, _) => true
    case SCheck(_, _) | SReadType(_, _) | SReadSize(_, _) | SReadBuf(_, _, _) => true
    case _ => false
  }

  /** Ownership follows the state word: each non-resting state has one owner. */
  ghost predicate Ownership(s: State) {
    && (forall i :: 0 <= i < |s.senders| ==> (OwnsS(s.senders[i]) <==> s.owner == BySender(i)))
    && (forall j :: 0 <= j < |s.procs| ==> (OwnsP(s.procs[j]) <==> s.owner == ByProcessor(j)))
    && match s.owner
       case Nobody => s.state == FREE || s.state == REQ_READY || s.state == RESP_READY
       case BySender(i) => i < |s.senders| && s.state == GUEST_BUSY
       case ByProcessor(j) => j < |s.procs| && s.state == if Locked(s.procs[j]) then DONE else BUSY
  }

  // ---- What the header and buffers hold ----

  /** What a sender publishes: a request that fits the slot, or the one size whose negation wraps. */
  predicate Sendable(c: Config, r: Request) {
    WellFormed(c, r) && (UAbs(r.size) <= c.maxReq || r.size == -0x8000_0000)
  }

  ghost predicate BytesWritten(c: Config, m: Mem, r: Request) {
    && Sendable(c, r) && |m.reqBuf| == c.maxReq
    && (UAbs(r.size) <= c.maxReq ==> Take(m.reqBuf, r.size) == r.data)
  }

  ghost predicate RequestInMemory(c: Config, m: Mem, r: Request) {
    BytesWritten(c, m, r) && m.reqSize == r.size && m.msgType == r.typ
  }

  /** The header's transaction is published and not yet answered. */
  ghost predicate Open(m: Mem, p: Past) {
    0 <= p.hdrTx < m.nextTx && p.hdrTx in p.requests && p.hdrTx !in p.answers
  }

  ghost predicate Pending(c: Config, m: Mem, p: Past) {
    Open(m, p) && RequestInMemory(c, m, p.requests[p.hdrTx])
  }

  ghost predicate AnswerInMemory(c: Config, m: Mem, ans: Answer) {
    match ans
    case Handled(seen, reply) =>
      && UAbs(m.respSize) <= c.maxResp == |m.respBuf|
      && Take(m.respBuf, m.respSize) == reply && m.msgType == seen.typ
    case _ => m.msgType == SYSTEM_ERROR && m.respSize == 0
  }

  /** The answer of the header's transaction is intact. */
  ghost predicate Answered(c: Config, m: Mem, p: Past) {
    && 0 <= p.hdrTx < m.nextTx && p.hdrTx in p.requests && p.hdrTx in p.answers
    && AnswerInMemory(c, m, p.answers[p.hdrTx])
  }

  /** An answer is for a request: the handler saw exactly that request and its reply fits or does
      not, or the request itself was too large. */
  ghost predicate AnswerFor(c: Config, r: Request, ans: Answer) {
    match ans
    case Handled(seen, reply) => UAbs(r.size) <= c.maxReq && seen == r && |reply| <= c.maxResp
    case Overflowed(seen, returned) => UAbs(r.size) <= c.maxReq && seen == r && UAbs(returned) > c.maxResp
    case Refused => UAbs(r.size) > c.maxReq
  }

  ghost predicate Numbered(m: Mem, p: Past, x: nat) {
    x == p.hdrTx == m.nextTx - 1 && x !in p.requests
  }

  ghost predicate SameNumber(c: Config, p: Past, x: nat) {
    SeqOf(c, x) == SeqOf(c, p.hdrTx)
  }

  ghost predicate SenderHolds(c: Config, m: Mem, p: Past, pc: Sender) {
    match pc
    case SWroteBuf(r) => BytesWritten(c, m, r)
    case SWroteSize(r) => BytesWritten(c, m, r) && m.reqSize == r.size
    case SWroteType(r) => RequestInMemory(c, m, r)
    case SWroteSeq(r, x) => RequestInMemory(c, m, r) && x == p.hdrTx == m.nextTx
    case SBumpedSeq(r, x) => RequestInMemory(c, m, r) && Numbered(m, p, x)
    case SArmed(r, x) => RequestInMemory(c, m, r) && Numbered(m, p, x)
    case SConsumed(_, _) => Answered(c, m, p)
    case SCheck(_, _) => Answered(c, m, p)
    case SReadType(_, x) => Answered(c, m, p) && SameNumber(c, p, x)
    case SReadSize(_, x) => Answered(c, m, p) && SameNumber(c, p, x) && m.msgType != SYSTEM_ERROR
    case SReadBuf(_, x, size) =>
      Answered(c, m, p) && SameNumber(c, p, x) && m.msgType != SYSTEM_ERROR && size == m.respSize
    case _ => true
  }

  ghost predicate AnswerReady(c: Config, m: Mem, r: Request, ans: Answer, size: int32) {
    && AnswerFor(c, r, ans)
    && match ans
       case Handled(_, reply) => UAbs(size) <= c.maxResp == |m.respBuf| && Take(m.respBuf, size) == reply
       case _ => size == 0
  }

  ghost predicate ProcessorHolds(c: Config, m: Mem, r: Request, pc: Processor) {
    match pc
    case PClaimed => RequestInMemory(c, m, r)
    case PSized(size) => RequestInMemory(c, m, r) && size == r.size
    case PTyped(size, typ) => RequestInMemory(c, m, r) && size == r.size && UAbs(size) <= c.maxReq && typ == r.typ
    case PRun(seen, view) => RequestInMemory(c, m, r) && UAbs(r.size) <= c.maxReq && seen == r && view == m.respBuf
    case PAnswer(ans, size) => m.msgType == r.typ && AnswerReady(c, m, r, ans, size)
    case PLocked(ans, size) => m.msgType == r.typ && AnswerReady(c, m, r, ans, size)
    case PWroteOne(ans, size) =>
      && AnswerReady(c, m, r, ans, size)
      && (ans.Handled? ==> m.msgType == r.typ)
      && (ans.Overflowed? ==> m.msgType == SYSTEM_ERROR)
      && (ans.Refused? ==> m.respSize == 0)
    case PWroteBoth(ans, size) => AnswerReady(c, m, r, ans, size) && AnswerInMemory(c, m, ans)
    case _ => true
  }

  ghost predicate Memory(c: Config, s: State) {
    var m, p := s.mem, s.past;
    && Sized(c, m) && -1 <= p.hdrTx <= m.nextTx
    && (p.hdrTx >= 0 ==> m.msgSeq == SeqOf(c, p.hdrTx))
    && match s.owner
       case Nobody => (s.state == REQ_READY ==> Pending(c, m, p)) && (s.state == RESP_READY ==> Answered(c, m, p))
       case BySender(i) => i < |s.senders| && SenderHolds(c, m, p, s.senders[i])
       case ByProcessor(j) => j < |s.procs| && Open(m, p) && ProcessorHolds(c, m, p.requests[p.hdrTx], s.procs[j])
  }

  // ---- What is known of the past ----

  ghost predicate EntryOk(c: Config, p: Past, n: nat, e: Entry) {
    match e
    case Returned(_, r, x, car, bytes) =>
      && 0 <= x <= car < n && x in p.requests && p.requests[x] == r && SeqOf(c, x) == SeqOf(c, car)
      && car in p.answers && p.answers[car].Handled? && p.answers[car].reply == bytes
      && p.answers[car].seen.typ != SYSTEM_ERROR
    case SystemError(_, r, x, car) =>
      && 0 <= x <= car < n && x in p.requests && p.requests[x] == r && SeqOf(c, x) == SeqOf(c, car)
      && car in p.answers && (p.answers[car].Handled? ==> p.answers[car].seen.typ == SYSTEM_ERROR)
    case BadSize(_) => false
    case _ => true
  }

  ghost predicate Remembered(p: Past, pc: Sender) {
    InFlight(pc) ==> pc.tx <= p.hdrTx && pc.tx in p.requests && p.requests[pc.tx] == pc.req
  }

  ghost predicate Records(c: Config, p: Past, n: nat) {
    && p.dropped == 0
    && (forall x :: x in p.requests ==> 0 <= x < n && Sendable(c, p.requests[x]))
    && (forall x :: x in p.answers ==> x in p.requests && AnswerFor(c, p.requests[x], p.answers[x]))
    && (forall k :: 0 <= k < |p.log| ==> EntryOk(c, p, n, p.log[k]))
  }

  ghost predicate History(c: Config, s: State) {
    && Records(c, s.past, s.mem.nextTx)
    && (forall i :: 0 <= i < |s.senders| ==> Remembered(s.past, s.senders[i]))
  }

  ghost predicate Inv(c: Config, s: State) {
    c.Valid() && Ownership(s) && Memory(c, s) && History(c, s)
  }

  // ---- Preservation ----

  lemma InitInv(c: Config, s: State)
    requires Init(c, s)
    ensures Inv(c, s)
  {
  }

  ghost predicate SameThreads(s: State, t: State) { |t.senders| == |s.senders| && |t.procs| == |s.procs| }

  predicate Resting(st: SlotState) { st == FREE || st == REQ_READY || st == RESP_READY }

  /** The history only grows: nothing recorded is ever changed. */
  ghost predicate Grows(p: Past, q: Past) {
    && p.hdrTx <= q.hdrTx
    && (forall x :: x in p.requests ==> x in q.requests && q.requests[x] == p.requests[x])
    && (forall x :: x in p.answers ==> x in q.answers && q.answers[x] == p.answers[x])
  }

  /** One sender moves to `pc`; ownership stays, is taken from nobody, or is given up. */
  lemma SenderMoves(c: Config, s: State, i: nat, pc: Sender, t: State)
    requires Inv(c, s) && i < |s.senders|
    requires t.senders == s.senders[i := pc] && t.procs == s.procs
    requires
      || (t.owner == s.owner && t.state == s.state && OwnsS(pc) == OwnsS(s.senders[i]))
      || (s.owner == Nobody && t.owner == BySender(i) && t.state == GUEST_BUSY && OwnsS(pc))
      || (s.owner == BySender(i) && t.owner == Nobody && Resting(t.state) && !OwnsS(pc))
    requires Memory(c, t) && Records(c, t.past, t.mem.nextTx) && Grows(s.past, t.past) && Remembered(t.past, pc)
    ensures Inv(c, t) && SameThreads(s, t)
  {
    hide SeqOf, Memory, Records;
  }

  /** A sender that neither gains nor loses the slot and touches no memory. */
  lemma SenderQuiet(c: Config, s: State, i: nat, pc: Sender, t: State)
    requires Inv(c, s) && i < |s.senders|
    requires t == At(s, i, pc).(gen := t.gen, activeWait := t.activeWait)
    requires OwnsS(pc) == OwnsS(s.senders[i])
    requires s.owner == BySender(i) ==> SenderHolds(c, s.mem, s.past, pc)
    requires Remembered(s.past, pc)
    ensures Inv(c, t) && SameThreads(s, t)
  {
    assert Memory(c, t) by { hide SeqOf, Pending, Answered, SenderHolds, ProcessorHolds, Sized, Open; }
    SenderMoves(c, s, i, pc, t) by { hide Memory, Records; }
  }

  /** The owner writes memory or history and keeps the slot. */
  lemma OwnerWrites(c: Config, s: State, i: nat, pc: Sender, t: State)
    requires Inv(c, s) && i < |s.senders| && s.owner == BySender(i)
    requires t == At(s, i, pc).(mem := t.mem, past := t.past)
    requires OwnsS(pc) && SenderHolds(c, t.mem, t.past, pc)
    requires Sized(c, t.mem) && -1 <= t.past.hdrTx <= t.mem.nextTx
    requires t.past.hdrTx >= 0 ==> t.mem.msgSeq == SeqOf(c, t.past.hdrTx)
    requires Records(c, t.past, t.mem.nextTx) && Grows(s.past, t.past) && Remembered(t.past, pc)
    ensures Inv(c, t) && SameThreads(s, t)
  {
    assert OwnsS(s.senders[i]) by { hide Memory, History; }
    assert Memory(c, t) by { hide SeqOf, SenderHolds, Sized; }
    SenderMoves(c, s, i, pc, t) by { hide Memory, Records; }
  }

  /** A claiming or consuming CAS wins a resting slot. */
  lemma SenderTakes(c: Config, s: State, i: nat, pc: Sender, t: State)
    requires Inv(c, s) && i < |s.senders| && Resting(s.state)
    requires t == At(s, i, pc).(state := GUEST_BUSY, owner := BySender(i))
    requires OwnsS(pc) && SenderHolds(c, s.mem, s.past, pc) && Remembered(s.past, pc)
    ensures Inv(c, t) && SameThreads(s, t)
  {
    assert s.owner == Nobody by { hide Memory, History; }
    assert Memory(c, t) by { hide SeqOf, Pending, Answered, SenderHolds, Sized; }
    SenderMoves(c, s, i, pc, t) by { hide Memory, Records; }
  }

  lemma ClaimInv(c: Config, s: State, i: nat, t: State)
    requires Inv(c, s) && i < |s.senders| && ClaimStep(c, s, i, t)
    ensures Inv(c, t) && SameThreads(s, t)
  {
    hide Memory, History;
    var pc := t.senders[i];
    if t.state == s.state {
      SenderQuiet(c, s, i, pc, t);
    } else {
      SenderTakes(c, s, i, pc, t);
    }
  }

  lemma WrittenIsSendable(c: Config, m: Mem, r: Request)
    requires RequestInMemory(c, m, r)
    ensures Sendable(c, r)
  {
  }

  /** The publishing store: a fresh request is recorded and the slot rests at REQ_READY. */
  lemma PublishInv(c: Config, s: State, i: nat, t: State)
    requires Inv(c, s) && i < |s.senders| && s.senders[i].SArmed? && SendStep(c, s, i, t)
    ensures Inv(c, t) && SameThreads(s, t)
  {
    hide SeqOf, RequestInMemory, Sendable;
    WrittenIsSendable(c, s.mem, s.senders[i].req);
    assert Records(c, t.past, t.mem.nextTx) by { hide Memory; }
    SenderMoves(c, s, i, t.senders[i], t) by { hide Records; }
  }

  /** The header writes between the payload and the sequence number. */
  lemma NumberingInv(c: Config, s: State, i: nat, t: State)
    requires Inv(c, s) && i < |s.senders| && SendStep(c, s, i, t)
    requires var pc := s.senders[i]; pc.SWroteBuf? || pc.SWroteSize? || pc.SWroteType? || pc.SWroteSeq?
    ensures Inv(c, t) && SameThreads(s, t)
  {
    hide SeqOf;
    OwnerWrites(c, s, i, t.senders[i], t);
  }

  lemma SendInv(c: Config, s: State, i: nat, t: State)
    requires Inv(c, s) && i < |s.senders| && SendStep(c, s, i, t)
    ensures Inv(c, t) && SameThreads(s, t)
  {
    var pc := t.senders[i];
    match s.senders[i]
    case SBumpedSeq(_, _) => SenderQuiet(c, s, i, pc, t) by { hide SeqOf, RequestInMemory, Records; }
    case SArmed(_, _) => PublishInv(c, s, i, t) by { hide Memory, History; }
    case SOwn =>
      hide SeqOf, Records;
      if pc == SRelease { SenderQuiet(c, s, i, pc, t); } else { OwnerWrites(c, s, i, pc, t); }
    case _ => NumberingInv(c, s, i, t) by { hide Memory, History; }
  }

  /** Appending one sound entry to the log keeps the records sound. */
  lemma LogKeepsRecords(c: Config, p: Past, n: nat, e: Entry)
    requires Records(c, p, n) && EntryOk(c, p, n, e)
    ensures Records(c, Logged(p, e), n) && Grows(p, Logged(p, e))
  {
    hide SeqOf;
  }

  /** A waiter that gives up: it owns nothing, and only the log changes. */
  lemma ForfeitInv(c: Config, s: State, i: nat, t: State)
    requires Inv(c, s) && i < |s.senders| && !OwnsS(s.senders[i])
    requires t == At(s, i, SIdle).(activeWait := false, past := Logged(s.past, Forfeited(i)))
    ensures Inv(c, t) && SameThreads(s, t)
  {
    LogKeepsRecords(c, s.past, s.mem.nextTx, Forfeited(i));
    assert Memory(c, t) by { hide SeqOf, Sized, Records, RequestInMemory, AnswerInMemory; }
    SenderMoves(c, s, i, SIdle, t) by { hide Memory, Records; }
  }

  lemma ConsumeInv(c: Config, s: State, i: nat, r: Request, x: nat, t: State)
    requires Inv(c, s) && i < |s.senders| && ConsumeCas(s, i, r, x, t)
    requires s.senders[i] == SReady(r, x) || s.senders[i] == SReadyBumped(r, x)
    ensures Inv(c, t) && SameThreads(s, t)
  {
    hide SeqOf, Records, Sized, AnswerInMemory, RequestInMemory;
    if s.state == RESP_READY {
      SenderTakes(c, s, i, SConsumed(r, x), t);
    } else {
      SenderQuiet(c, s, i, SLost(r, x), t);
    }
  }

  lemma WaitInv(c: Config, s: State, i: nat, t: State)
    requires Inv(c, s) && i < |s.senders| && WaitStep(c, s, i, t)
    ensures Inv(c, t) && SameThreads(s, t)
  {
    var was, pc := s.senders[i], t.senders[i];
    if was.SLost? || was.STimedOut? {
      ForfeitInv(c, s, i, t) by { hide Memory, History; }
    } else if (was.SReady? || was.SReadyBumped?) && ConsumeCas(s, i, was.req, was.tx, t) {
      ConsumeInv(c, s, i, was.req, was.tx, t) by { hide Memory, History; }
    } else {
      SenderQuiet(c, s, i, pc, t) by { hide SeqOf, Records, Sized, AnswerInMemory, Pending; }
    }
  }

  /** The owner learns an outcome and logs it. */
  lemma FinishInv(c: Config, s: State, i: nat, e: Entry, t: State)
    requires Inv(c, s) && i < |s.senders| && s.owner == BySender(i)
    requires Finish(s, i, e, t) && EntryOk(c, s.past, s.mem.nextTx, e)
    ensures Inv(c, t) && SameThreads(s, t)
  {
    LogKeepsRecords(c, s.past, s.mem.nextTx, e);
    OwnerWrites(c, s, i, t.senders[i], t) by { hide SeqOf, Records; }
  }

  /** Checking the number and the type. */
  lemma CheckInv(c: Config, s: State, i: nat, t: State)
    requires Inv(c, s) && i < |s.senders| && ReadStep(c, s, i, t) && (s.senders[i].SCheck? || s.senders[i].SReadType?)
    ensures Inv(c, t) && SameThreads(s, t)
  {
    hide SeqOf, Records;
    var pc, m := t.senders[i], s.mem;
    match s.senders[i]
    case SCheck(r, x) =>
      if m.msgSeq == SeqOf(c, x) { SenderQuiet(c, s, i, pc, t); } else { FinishInv(c, s, i, SeqMismatch(i), t); }
    case SReadType(r, x) =>
      if m.msgType == SYSTEM_ERROR { FinishInv(c, s, i, SystemError(i, r, x, s.past.hdrTx), t); }
      else { SenderQuiet(c, s, i, pc, t); }
  }

  /** Reading the size and the bytes. */
  lemma TakeInv(c: Config, s: State, i: nat, t: State)
    requires Inv(c, s) && i < |s.senders| && ReadStep(c, s, i, t) && (s.senders[i].SReadSize? || s.senders[i].SReadBuf?)
    ensures Inv(c, t) && SameThreads(s, t)
  {
    hide SeqOf, Records;
    match s.senders[i]
    case SReadSize(r, x) => SenderQuiet(c, s, i, t.senders[i], t);
    case SReadBuf(r, x, size) => FinishInv(c, s, i, Returned(i, r, x, s.past.hdrTx, Take(s.mem.respBuf, size)), t);
  }

  lemma ReleaseInv(c: Config, s: State, i: nat, t: State)
    requires Inv(c, s) && i < |s.senders| && ReadStep(c, s, i, t) && s.senders[i].SRelease?
    ensures Inv(c, t) && SameThreads(s, t)
  {
    hide SeqOf, Records;
    SenderMoves(c, s, i, t.senders[i], t);
  }

  lemma ReadInv(c: Config, s: State, i: nat, t: State)
    requires Inv(c, s) && i < |s.senders| && ReadStep(c, s, i, t)
    ensures Inv(c, t) && SameThreads(s, t)
  {
    hide Inv, SameThreads, SeqOf;
    match s.senders[i]
    case SCheck(_, _) => CheckInv(c, s, i, t);
    case SReadType(_, _) => CheckInv(c, s, i, t);
    case SReadSize(_, _) => TakeInv(c, s, i, t);
    case SReadBuf(_, _, _) => TakeInv(c, s, i, t);
    case SRelease => ReleaseInv(c, s, i, t);
  }

  /** One processor moves to `pc`; ownership stays, is taken from nobody, or is given up. */
  lemma ProcessorMoves(c: Config, s: State, j: nat, pc: Processor, t: State)
    requires Inv(c, s) && j < |s.procs|
    requires t.procs == s.procs[j := pc] && t.senders == s.senders
    requires
      || (t.owner == s.owner && OwnsP(pc) == OwnsP(s.procs[j])
          && t.state == (if !OwnsP(pc) then s.state else if Locked(pc) then DONE else BUSY))
      || (s.owner == Nobody && t.owner == ByProcessor(j) && t.state == BUSY && OwnsP(pc) && !Locked(pc))
      || (s.owner == ByProcessor(j) && t.owner == Nobody && Resting(t.state) && !OwnsP(pc))
    requires Memory(c, t) && Records(c, t.past, t.mem.nextTx) && Grows(s.past, t.past)
    ensures Inv(c, t) && SameThreads(s, t)
  {
    hide SeqOf, Memory, Records;
  }

  /** The owning processor reads, writes memory or moves the state word, and keeps the slot. */
  lemma ProcessorWrites(c: Config, s: State, j: nat, pc: Processor, t: State)
    requires Inv(c, s) && j < |s.procs| && s.owner == ByProcessor(j)
    requires t == AtP(s, j, pc).(state := if Locked(pc) then DONE else BUSY, mem := t.mem)
    requires Sized(c, t.mem) && t.mem.nextTx == s.mem.nextTx && t.mem.msgSeq == s.mem.msgSeq
    requires OwnsP(pc) && Open(s.mem, s.past) && ProcessorHolds(c, t.mem, s.past.requests[s.past.hdrTx], pc)
    ensures Inv(c, t) && SameThreads(s, t)
  {
    assert OwnsP(s.procs[j]) by { hide Memory, History; }
    assert Memory(c, t) by { hide SeqOf, ProcessorHolds, Sized; }
    ProcessorMoves(c, s, j, pc, t) by { hide Memory, Records; }
  }

  /** Looking for a request and the claiming CAS. */
  lemma ServeClaimInv(c: Config, s: State, j: nat, t: State)
    requires Inv(c, s) && j < |s.procs| && !OwnsP(s.procs[j]) && ServeStep(c, s, j, t)
    ensures Inv(c, t) && SameThreads(s, t)
  {
    hide SeqOf, Records, RequestInMemory, Sized;
    ProcessorMoves(c, s, j, t.procs[j], t);
  }

  lemma ServeInv(c: Config, s: State, j: nat, t: State)
    requires Inv(c, s) && j < |s.procs| && ServeStep(c, s, j, t)
    ensures Inv(c, t) && SameThreads(s, t)
  {
    if OwnsP(s.procs[j]) {
      hide SeqOf, Records;
      ProcessorWrites(c, s, j, t.procs[j], t);
    } else {
      ServeClaimInv(c, s, j, t) by { hide Memory, History; }
    }
  }

  lemma RunHandlerInv(c: Config, s: State, j: nat, t: State)
    requires Inv(c, s) && j < |s.procs| && s.procs[j].PRun? && AnswerStep(c, s, j, t)
    ensures Inv(c, t) && SameThreads(s, t)
  {
    HandlerHolds(c, s, j, t);
    hide SeqOf, Records, AnswerStep, ProcessorHolds;
    ProcessorWrites(c, s, j, t.procs[j], t);
  }

  lemma HandlerHolds(c: Config, s: State, j: nat, t: State)
    requires Inv(c, s) && j < |s.procs| && s.procs[j].PRun? && AnswerStep(c, s, j, t)
    ensures s.owner == ByProcessor(j) && OwnsP(t.procs[j]) && !Locked(t.procs[j]) && Open(s.mem, s.past)
    ensures t == AtP(s, j, t.procs[j]).(mem := t.mem) && s.state == BUSY
    ensures Sized(c, t.mem) && t.mem.nextTx == s.mem.nextTx && t.mem.msgSeq == s.mem.msgSeq
    ensures ProcessorHolds(c, t.mem, s.past.requests[s.past.hdrTx], t.procs[j])
  {
    hide SeqOf, History;
  }

  /** The publishing CAS: the answer is recorded and the slot rests at RESP_READY. */
  lemma RespondInv(c: Config, s: State, j: nat, t: State)
    requires Inv(c, s) && j < |s.procs| && s.procs[j].PWroteBoth? && AnswerStep(c, s, j, t)
    ensures Inv(c, t) && SameThreads(s, t)
  {
    hide SeqOf;
    assert s.owner == ByProcessor(j) && s.state == DONE by { hide Memory, History; }
    assert Records(c, t.past, t.mem.nextTx);
    ProcessorMoves(c, s, j, t.procs[j], t) by { hide Records; }
  }

  /** Taking the publish lock. */
  lemma LockInv(c: Config, s: State, j: nat, t: State)
    requires Inv(c, s) && j < |s.procs| && AnswerStep(c, s, j, t) && s.procs[j].PAnswer?
    ensures Inv(c, t) && SameThreads(s, t)
  {
    ProcessorWrites(c, s, j, t.procs[j], t) by { hide Records, SeqOf, Sized; }
  }

  /** Writing the response header under it. */
  lemma HeaderInv(c: Config, s: State, j: nat, t: State)
    requires Inv(c, s) && j < |s.procs| && AnswerStep(c, s, j, t) && (s.procs[j].PLocked? || s.procs[j].PWroteOne?)
    ensures Inv(c, t) && SameThreads(s, t)
  {
    ProcessorWrites(c, s, j, t.procs[j], t) by { hide Records, SeqOf, Sized; }
  }

  lemma AnswerInv(c: Config, s: State, j: nat, t: State)
    requires Inv(c, s) && j < |s.procs| && AnswerStep(c, s, j, t)
    ensures Inv(c, t) && SameThreads(s, t)
  {
    hide Inv, SameThreads;
    match s.procs[j]
    case PRun(_, _) => RunHandlerInv(c, s, j, t);
    case PWroteBoth(_, _) => RespondInv(c, s, j, t);
    case PAnswer(_, _) => LockInv(c, s, j, t);
    case PLocked(_, _) => HeaderInv(c, s, j, t);
    case PWroteOne(_, _) => HeaderInv(c, s, j, t);
  }

  lemma NextInv(c: Config, s: State, t: State)
    requires Inv(c, s) && Next(c, s, t)
    ensures Inv(c, t) && SameThreads(s, t)
  {
    hide Inv, ClaimStep, SendStep, WaitStep, ReadStep, ServeStep, AnswerStep;
    if i: nat :| i < |s.senders| && SenderStep(c, s, i, t) {
      if ClaimStep(c, s, i, t) { ClaimInv(c, s, i, t); }
      else if SendStep(c, s, i, t) { SendInv(c, s, i, t); }
      else if WaitStep(c, s, i, t) { WaitInv(c, s, i, t); }
      else { ReadInv(c, s, i, t); }
    } else {
      var j: nat :| j < |s.procs| && ProcessorStep(c, s, j, t);
      if ServeStep(c, s, j, t) { ServeInv(c, s, j, t); } else { AnswerInv(c, s, j, t); }
    }
  }
}
