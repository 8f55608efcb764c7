/** The inductive invariant of the host slot and its preservation, step by step. */
module HostSlotInvariant {
  import opened SlotTypes
  import opened HostSlot

  /** Program points at which the host owns the slot (state word at BUSY). */
  predicate OwnsH(h: Host) {
    match h
    case HOwn | HWroteBuf(_) | HWroteSize(_) | HWroteType(_) | HWroteSeq(_, _) | HArmed(_, _) | HPrimed(_, _) => true
    case HParked(_, _) | HCheck(_, _) | HReadType(_, _) | HReadSize(_, _, _) | HReadBuf(_, _, _, _) | HRelease => true
    case _ => false
  }

  /** Program points at which the host reads a response. */
  predicate Reading(h: Host) {
    h.HParked? || h.HCheck? || h.HReadType? || h.HReadSize? || h.HReadBuf?
  }

  /** Program points from publication until the host knows, or gives up on, the outcome. */
  predicate Outstanding(h: Host) {
    match h
    case HPublished(_, _) | HSignal(_, _) | HSpin(_, _) | HSlept(_, _) | HLoop(_, _) | HBlocked(_, _) => true
    case HWake(_, _) | HFinal(_, _) | HReady(_, _) | HTimedOut(_, _) | HDisowned(_, _) | HRearmed(_, _) => true
    case _ => false
  }

  predicate ClaimedW(w: Worker) {
    w.WClaimed? || w.WTyped? || w.WSized? || w.WRun? || w.WPanicked? || w.WAnswer?
  }
  predicate LockedW(w: Worker) { w.WLocked? || w.WWroteOne? || w.WWroteBoth? }

  /** Who is where for each value of the state word. A worker whose slot was stolen stays in its
      handler, but then the state word is never one the worker publishes from. */
  ghost predicate Roles(s: State) {
    var h, w, st := s.host, s.worker, s.state;
    && (OwnsH(h) <==> st == BUSY)
    && (LockedW(w) <==> st == DONE)
    && (st == GUEST_BUSY ==> ClaimedW(w))
    && (st == GUEST_BUSY || st == DONE ==> w.tx == s.past.hdrTx)
    && (ClaimedW(w) ==> st == GUEST_BUSY || st == FREE || st == BUSY || st == REQ_READY)
    && (Outstanding(h) ==> h.tx == s.past.hdrTx && st != FREE)
    && (h.HReady? ==> st == RESP_READY)
    && (h.HFree? || h.HFreeBumped? ==> st == FREE)
    && (h.HZombie? || h.HStealWon? ==> Stealable(h.seen))
    && (h.HWroteSeq? || h.HArmed? || h.HPrimed? ==> h.tx == s.past.hdrTx)
    && (Reading(h) ==> h.tx == s.past.hdrTx && !ClaimedW(w))
  }

  // ---- What the header and buffers hold ----

  ghost predicate BytesWritten(c: Config, m: Mem, r: Request) {
    WellFormed(c, r) && |m.reqBuf| == c.maxReq && Take(m.reqBuf, r.size) == r.data
  }

  ghost predicate RequestInMemory(c: Config, m: Mem, r: Request) {
    BytesWritten(c, m, r) && m.reqSize == r.size && m.msgType == r.typ
  }

  ghost predicate Open(p: Past) {
    p.hdrTx in p.requests && p.hdrTx !in p.answers
  }

  ghost predicate Pending(c: Config, m: Mem, p: Past) {
    Open(p) && RequestInMemory(c, m, p.requests[p.hdrTx])
  }

  ghost predicate AnswerInMemory(c: Config, m: Mem, ans: Answer) {
    match ans
    case Handled(_, typ, reply) => m.msgType == typ && Clamped(m.respBuf, m.respSize) == reply
    case Heartbeat => m.msgType == HEARTBEAT_RESP && m.respSize == 0
    case Shutdown => m.msgType == SHUTDOWN && m.respSize == 0
    case _ => m.msgType == SYSTEM_ERROR && m.respSize == 0
  }

  ghost predicate Answered(c: Config, m: Mem, p: Past) {
    p.hdrTx in p.requests && p.hdrTx in p.answers && AnswerInMemory(c, m, p.answers[p.hdrTx])
  }

  /** Types the worker hands to the handler. */
  predicate Ordinary(typ: int) { typ != HEARTBEAT_REQ && typ != SHUTDOWN }

  /** An answer is for a request: the handler saw exactly that request, or the type is the worker's
      own. No request the host publishes is too large, so none is refused. */
  ghost predicate AnswerFor(c: Config, r: Request, ans: Answer) {
    match ans
    case Handled(seen, _, reply) => seen == r && Ordinary(r.typ) && |reply| <= c.maxResp
    case Heartbeat => r.typ == HEARTBEAT_REQ
    case Shutdown => r.typ == SHUTDOWN
    case Refused => false
    case Panicked => Ordinary(r.typ)
  }

  ghost predicate HostHolds(c: Config, m: Mem, p: Past, h: Host) {
    match h
    case HWroteBuf(r) => BytesWritten(c, m, r)
    case HWroteSize(r) => BytesWritten(c, m, r) && m.reqSize == r.size
    case HWroteType(r) => RequestInMemory(c, m, r)
    case HWroteSeq(r, x) => RequestInMemory(c, m, r) && x == p.hdrTx && x !in p.requests
    case HArmed(r, x) => RequestInMemory(c, m, r) && x == p.hdrTx && x !in p.requests
    case HPrimed(r, x) => RequestInMemory(c, m, r) && x == p.hdrTx && x !in p.requests
    case HReadSize(_, _, typ) => typ == m.msgType != SYSTEM_ERROR
    case HReadBuf(_, _, typ, size) => typ == m.msgType != SYSTEM_ERROR && size == m.respSize
    case _ => true
  }

  /** What a worker that still owns the slot knows. */
  ghost predicate WorkerHolds(c: Config, m: Mem, r: Request, w: Worker) {
    match w
    case WTyped(_, typ) => typ == r.typ
    case WSized(_, typ, size) => typ == r.typ && size == r.size && Ordinary(typ)
    case WRun(_, seen, view) => seen == r && view == m.respBuf && Ordinary(r.typ)
    case WPanicked(_) => Ordinary(r.typ)
    case WAnswer(_, ans, size) => AnswerReady(c, m, r, ans, size)
    case _ => true
  }

  ghost predicate AnswerReady(c: Config, m: Mem, r: Request, ans: Answer, size: int32) {
    AnswerFor(c, r, ans) && if ans.Handled? then Clamped(m.respBuf, size) == ans.reply else size == 0
  }

  ghost predicate LockHolds(c: Config, m: Mem, r: Request, w: Worker) {
    match w
    case WLocked(_, ans, size) => AnswerReady(c, m, r, ans, size) && m.msgType == r.typ
    case WWroteOne(_, ans, size) =>
      && AnswerReady(c, m, r, ans, size)
      && (if ans.Heartbeat? then m.msgType == HEARTBEAT_RESP
          else if ans.Panicked? then m.msgType == SYSTEM_ERROR else m.respSize == size && m.msgType == r.typ)
    case WWroteBoth(_, ans, size) => AnswerFor(c, r, ans) && AnswerInMemory(c, m, ans)
    case _ => true
  }

  ghost predicate Memory(c: Config, s: State) {
    var m, p := s.mem, s.past;
    && Sized(c, m) && -1 <= p.hdrTx < s.nextTx
    && (p.hdrTx >= 0 ==> m.msgSeq == SeqOf(c, p.hdrTx))
    && HostHolds(c, m, p, s.host)
    && (s.state == REQ_READY ==> Pending(c, m, p))
    && (s.state == GUEST_BUSY ==> Pending(c, m, p) && WorkerHolds(c, m, p.requests[p.hdrTx], s.worker))
    && (s.state == DONE ==> Open(p) && LockHolds(c, m, p.requests[p.hdrTx], s.worker))
    && (s.state == RESP_READY || Reading(s.host) ==> Answered(c, m, p))
    && (s.worker.WRun? ==> s.worker.view == m.respBuf)
  }

  // ---- What is known of the past ----

  ghost predicate EntryOk(p: Past, e: Entry) {
    match e
    case Returned(r, x, typ, bytes) =>
      && x in p.requests && p.requests[x] == r && x in p.answers && typ != SYSTEM_ERROR
      && (match p.answers[x]
         case Handled(_, t, reply) => typ == t && bytes == reply
         case Heartbeat => typ == HEARTBEAT_RESP && bytes == []
         case Shutdown => typ == SHUTDOWN && bytes == []
         case _ => false)
    case SystemError(r, x) =>
      && x in p.requests && p.requests[x] == r && x in p.answers
      && (p.answers[x].Panicked? || (p.answers[x].Handled? && p.answers[x].typ == SYSTEM_ERROR))
    case SeqMismatch => false
    case TimedOut => true
  }

  ghost predicate Records(c: Config, p: Past, n: nat) {
    && p.broken == 0
    && (forall x :: x in p.requests ==> 0 <= x < n && WellFormed(c, p.requests[x]))
    && (forall x :: x in p.answers ==> x in p.requests && AnswerFor(c, p.requests[x], p.answers[x]))
    && (forall k :: 0 <= k < |p.log| ==> EntryOk(p, p.log[k]))
  }

  ghost predicate Remembered(p: Past, h: Host) {
    Outstanding(h) || Reading(h) ==> h.tx in p.requests && p.requests[h.tx] == h.req
  }

  // ---- Doorbells ----

  /** A parked side is flagged as waiting, and if what it waits for is published then its event is
      set or the publisher has yet to look at the flag or to signal. */
  ghost predicate NoLostWakeup(s: State) {
    var b, h, w := s.bells, s.host, s.worker;
    && (h.HSlept? || h.HLoop? || h.HBlocked? || h.HWake? ==> b.hostWaiting)
    && (w.WSlept? || w.WBlocked? ==> b.guestWaiting)
    && (w.WBlocked? && s.state == REQ_READY ==> b.reqEvent || h.HPublished? || h.HSignal?)
    && (h.HBlocked? && s.state == RESP_READY ==> b.respEvent || w.WPublished? || w.WSignal?)
  }

  ghost predicate Inv(c: Config, s: State) {
    && c.Valid() && Roles(s) && Memory(c, s)
    && Records(c, s.past, s.nextTx) && Remembered(s.past, s.host) && NoLostWakeup(s)
  }

  // ---- Preservation ----

  lemma InitInv(c: Config, s: State)
    requires Init(c, s)
    ensures Inv(c, s)
  {
  }

  lemma AcquireRoles(c: Config, s: State, t: State)
    requires Inv(c, s) && AcquireStep(c, s, t)
    ensures Roles(t)
  {
    hide Memory, Records, NoLostWakeup, Remembered;
  }

  lemma AcquireMemory(c: Config, s: State, t: State)
    requires Inv(c, s) && AcquireStep(c, s, t)
    ensures Memory(c, t)
  {
    hide SeqOf, Records, NoLostWakeup, Remembered, RequestInMemory, AnswerInMemory, LockHolds, WorkerHolds, Sized;
  }

  lemma AcquirePast(c: Config, s: State, t: State)
    requires Inv(c, s) && AcquireStep(c, s, t)
    ensures Records(c, t.past, t.nextTx) && Remembered(t.past, t.host)
  {
    hide Memory, Records, NoLostWakeup;
  }

  lemma AcquireBells(c: Config, s: State, t: State)
    requires Inv(c, s) && AcquireStep(c, s, t)
    ensures NoLostWakeup(t)
  {
    hide Memory, Records, Remembered;
  }

  lemma FillRoles(c: Config, s: State, t: State)
    requires Inv(c, s) && OwnsH(s.host) && !s.host.HPrimed? && SendStep(c, s, t)
    ensures Roles(t)
  {
    hide Memory, Records, NoLostWakeup, Remembered;
  }

  lemma PublishRoles(c: Config, s: State, t: State)
    requires Inv(c, s) && (s.host.HPrimed? || !OwnsH(s.host)) && SendStep(c, s, t)
    ensures Roles(t)
  {
    hide Memory, Records, NoLostWakeup, Remembered;
  }

  lemma SendRoles(c: Config, s: State, t: State)
    requires Inv(c, s) && SendStep(c, s, t)
    ensures Roles(t)
  {
    hide Inv, SendStep, Roles;
    if OwnsH(s.host) && !s.host.HPrimed? { FillRoles(c, s, t); } else { PublishRoles(c, s, t); }
  }

  lemma PublishMemory(c: Config, s: State, t: State)
    requires Inv(c, s) && s.host.HPrimed? && SendStep(c, s, t)
    ensures Memory(c, t)
  {
    hide SeqOf, EntryOk, NoLostWakeup, Remembered, AnswerInMemory, LockHolds, WorkerHolds, RequestInMemory;
  }

  lemma NumberMemory(c: Config, s: State, t: State)
    requires Inv(c, s) && s.host.HWroteType? && SendStep(c, s, t)
    ensures Memory(c, t)
  {
    hide SeqOf, EntryOk, NoLostWakeup, Remembered, AnswerInMemory, LockHolds, WorkerHolds;
  }

  lemma BufferMemory(c: Config, s: State, t: State)
    requires Inv(c, s) && s.host.HOwn? && SendStep(c, s, t)
    ensures Memory(c, t)
  {
    hide SeqOf, Records, NoLostWakeup, Remembered, AnswerInMemory, LockHolds, WorkerHolds, Answered, Pending, Open;
  }

  lemma FillMemory(c: Config, s: State, t: State)
    requires Inv(c, s) && !s.host.HPrimed? && !s.host.HWroteType? && !s.host.HOwn? && SendStep(c, s, t)
    ensures Memory(c, t)
  {
    hide Put, SeqOf, Records, NoLostWakeup, Remembered, AnswerInMemory, LockHolds, WorkerHolds;
  }

  lemma SendMemory(c: Config, s: State, t: State)
    requires Inv(c, s) && SendStep(c, s, t)
    ensures Memory(c, t)
  {
    hide Inv, SendStep, Memory;
    if s.host.HPrimed? { PublishMemory(c, s, t); }
    else if s.host.HWroteType? { NumberMemory(c, s, t); }
    else if s.host.HOwn? { BufferMemory(c, s, t); }
    else { FillMemory(c, s, t); }
  }

  lemma SendPast(c: Config, s: State, t: State)
    requires Inv(c, s) && SendStep(c, s, t)
    ensures Records(c, t.past, t.nextTx) && Remembered(t.past, t.host)
  {
    hide SeqOf;
  }

  lemma SendBells(c: Config, s: State, t: State)
    requires Inv(c, s) && SendStep(c, s, t)
    ensures NoLostWakeup(t)
  {
    hide Memory, Records, Remembered;
  }

  lemma SpinRoles(c: Config, s: State, t: State)
    requires Inv(c, s) && WaitStep(c, s, t) && !s.host.HReady? && !s.host.HParked?
    ensures Roles(t)
  {
    hide Memory, Records, NoLostWakeup, Remembered;
  }

  lemma ConsumeRoles(c: Config, s: State, t: State)
    requires Inv(c, s) && WaitStep(c, s, t) && (s.host.HReady? || s.host.HParked?)
    ensures Roles(t)
  {
    hide Memory, Records, NoLostWakeup, Remembered;
  }

  lemma WaitRoles(c: Config, s: State, t: State)
    requires Inv(c, s) && WaitStep(c, s, t)
    ensures Roles(t)
  {
    hide Inv, WaitStep, Roles;
    if s.host.HReady? || s.host.HParked? { ConsumeRoles(c, s, t); } else { SpinRoles(c, s, t); }
  }

  lemma SpinMemory(c: Config, s: State, t: State)
    requires Inv(c, s) && WaitStep(c, s, t) && !s.host.HReady? && !s.host.HParked?
    ensures Memory(c, t)
  {
    hide Roles, SeqOf, Records, NoLostWakeup, Remembered, RequestInMemory, AnswerInMemory, LockHolds, WorkerHolds, Sized;
  }

  lemma ConsumeMemory(c: Config, s: State, t: State)
    requires Inv(c, s) && WaitStep(c, s, t) && (s.host.HReady? || s.host.HParked?)
    ensures Memory(c, t)
  {
    hide SeqOf, Records, NoLostWakeup, Remembered, RequestInMemory, AnswerInMemory, LockHolds, WorkerHolds, Sized;
  }

  lemma WaitMemory(c: Config, s: State, t: State)
    requires Inv(c, s) && WaitStep(c, s, t)
    ensures Memory(c, t)
  {
    hide Inv, WaitStep, Memory;
    if s.host.HReady? || s.host.HParked? { ConsumeMemory(c, s, t); } else { SpinMemory(c, s, t); }
  }

  lemma WaitPast(c: Config, s: State, t: State)
    requires Inv(c, s) && WaitStep(c, s, t)
    ensures Records(c, t.past, t.nextTx) && Remembered(t.past, t.host)
  {
    hide SeqOf;
  }

  lemma WaitBells(c: Config, s: State, t: State)
    requires Inv(c, s) && WaitStep(c, s, t)
    ensures NoLostWakeup(t)
  {
    hide Memory, Records, Remembered;
  }

  lemma ReadRoles(c: Config, s: State, t: State)
    requires Inv(c, s) && ReadStep(c, s, t)
    ensures Roles(t)
  {
    hide Memory, Records, NoLostWakeup, Remembered;
  }

  lemma ReadMemory(c: Config, s: State, t: State)
    requires Inv(c, s) && ReadStep(c, s, t)
    ensures Memory(c, t)
  {
    hide SeqOf, Records;
  }

  lemma ReadPast(c: Config, s: State, t: State)
    requires Inv(c, s) && ReadStep(c, s, t)
    ensures Records(c, t.past, t.nextTx) && Remembered(t.past, t.host)
  {
    hide SeqOf;
  }

  lemma ReadBells(c: Config, s: State, t: State)
    requires Inv(c, s) && ReadStep(c, s, t)
    ensures NoLostWakeup(t)
  {
    hide Memory, Records, Remembered;
  }

  lemma WatchRoles(c: Config, s: State, t: State)
    requires Inv(c, s) && WatchStep(c, s, t)
    ensures Roles(t)
  {
    hide Memory, Records, NoLostWakeup, Remembered;
  }

  lemma WatchMemory(c: Config, s: State, t: State)
    requires Inv(c, s) && WatchStep(c, s, t)
    ensures Memory(c, t)
  {
    hide SeqOf, Records, NoLostWakeup, Remembered, RequestInMemory, AnswerInMemory, LockHolds, HostHolds, Sized;
  }

  lemma WatchPast(c: Config, s: State, t: State)
    requires Inv(c, s) && WatchStep(c, s, t)
    ensures Records(c, t.past, t.nextTx) && Remembered(t.past, t.host)
  {
    hide Memory, Records, NoLostWakeup;
  }

  lemma WatchBells(c: Config, s: State, t: State)
    requires Inv(c, s) && WatchStep(c, s, t)
    ensures NoLostWakeup(t)
  {
    hide Memory, Records, Remembered;
  }

  lemma HandleRoles(c: Config, s: State, t: State)
    requires Inv(c, s) && HandleStep(c, s, t)
    ensures Roles(t)
  {
    hide Memory, Records, NoLostWakeup, Remembered;
  }

  lemma RunHandlerMemory(c: Config, s: State, t: State)
    requires Inv(c, s) && s.worker.WRun? && HandleStep(c, s, t)
    ensures Memory(c, t)
  {
    hide SeqOf, Records, NoLostWakeup, Remembered, LockHolds, AnswerInMemory;
  }

  lemma ReadRequestMemory(c: Config, s: State, t: State)
    requires Inv(c, s) && (s.worker.WClaimed? || s.worker.WTyped?) && HandleStep(c, s, t)
    ensures Memory(c, t)
  {
    hide SeqOf, Records, NoLostWakeup, Remembered, LockHolds, AnswerInMemory, BytesWritten, HostHolds;
  }

  lemma BeginMemory(c: Config, s: State, t: State)
    requires Inv(c, s) && (s.worker.WSized? || s.worker.WPanicked?) && HandleStep(c, s, t)
    ensures Memory(c, t)
  {
    hide SeqOf, Records, NoLostWakeup, Remembered, LockHolds, AnswerInMemory, HostHolds;
  }

  lemma HandleMemory(c: Config, s: State, t: State)
    requires Inv(c, s) && HandleStep(c, s, t)
    ensures Memory(c, t)
  {
    hide Inv, Memory;
    match s.worker
    case WRun(_, _, _) => RunHandlerMemory(c, s, t);
    case WClaimed(_) => ReadRequestMemory(c, s, t);
    case WTyped(_, _) => ReadRequestMemory(c, s, t);
    case WSized(_, _, _) => BeginMemory(c, s, t);
    case WPanicked(_) => BeginMemory(c, s, t);
  }

  lemma HandlePast(c: Config, s: State, t: State)
    requires Inv(c, s) && HandleStep(c, s, t)
    ensures Records(c, t.past, t.nextTx) && Remembered(t.past, t.host)
  {
    hide Memory, Records, NoLostWakeup;
  }

  lemma HandleBells(c: Config, s: State, t: State)
    requires Inv(c, s) && HandleStep(c, s, t)
    ensures NoLostWakeup(t)
  {
    hide Memory, Records, Remembered;
  }

  lemma RespondRoles(c: Config, s: State, t: State)
    requires Inv(c, s) && RespondStep(c, s, t)
    ensures Roles(t)
  {
    hide Memory, Records, NoLostWakeup, Remembered;
  }

  lemma RespondMemory(c: Config, s: State, t: State)
    requires Inv(c, s) && RespondStep(c, s, t)
    ensures Memory(c, t)
  {
    hide SeqOf, Records, NoLostWakeup, Remembered, BytesWritten;
  }

  lemma AnswerPast(c: Config, s: State, t: State)
    requires Inv(c, s) && s.worker.WWroteBoth? && RespondStep(c, s, t)
    ensures Records(c, t.past, t.nextTx) && Remembered(t.past, t.host)
  {
    hide SeqOf, HostHolds, WorkerHolds, RequestInMemory, NoLostWakeup, Sized;
  }

  lemma RespondPast(c: Config, s: State, t: State)
    requires Inv(c, s) && RespondStep(c, s, t)
    ensures Records(c, t.past, t.nextTx) && Remembered(t.past, t.host)
  {
    hide Memory, NoLostWakeup, Roles, AnswerFor;
    if s.worker.WWroteBoth? { AnswerPast(c, s, t); }
  }

  lemma RespondBells(c: Config, s: State, t: State)
    requires Inv(c, s) && RespondStep(c, s, t)
    ensures NoLostWakeup(t)
  {
    hide Memory, Records, Remembered;
  }

  lemma NextInv(c: Config, s: State, t: State)
    requires Inv(c, s) && Next(c, s, t)
    ensures Inv(c, t)
  {
    hide Roles, Memory, Records, Remembered, NoLostWakeup;
    hide AcquireStep, SendStep, WaitStep, ReadStep, WatchStep, HandleStep, RespondStep;
    if AcquireStep(c, s, t) { AcquireRoles(c, s, t); AcquireMemory(c, s, t); AcquirePast(c, s, t); AcquireBells(c, s, t); }
    else if SendStep(c, s, t) { SendRoles(c, s, t); SendMemory(c, s, t); SendPast(c, s, t); SendBells(c, s, t); }
    else if WaitStep(c, s, t) { WaitRoles(c, s, t); WaitMemory(c, s, t); WaitPast(c, s, t); WaitBells(c, s, t); }
    else if ReadStep(c, s, t) { ReadRoles(c, s, t); ReadMemory(c, s, t); ReadPast(c, s, t); ReadBells(c, s, t); }
    else if WatchStep(c, s, t) { WatchRoles(c, s, t); WatchMemory(c, s, t); WatchPast(c, s, t); WatchBells(c, s, t); }
    else if HandleStep(c, s, t) { HandleRoles(c, s, t); HandleMemory(c, s, t); HandlePast(c, s, t); HandleBells(c, s, t); }
    else { RespondRoles(c, s, t); RespondMemory(c, s, t); RespondPast(c, s, t); RespondBells(c, s, t); }
  }

  lemma {:induction false} RunInv(c: Config, run: seq<State>, k: nat)
    requires IsRun(c, run) && k < |run|
    ensures Inv(c, run[k])
  {
    if k == 0 {
      InitInv(c, run[0]);
    } else {
      RunInv(c, run, k - 1);
      assert Next(c, run[k - 1], run[k]);
      NextInv(c, run[k - 1], run[k]);
    }
  }
}
