/** One host slot driven by one host thread and served by its one Go worker, as a transition
    system with one step per atomic access and one per plain access. A timeout may fire whenever
    the awaited state is not there, the handler may panic, and the host may steal the slot of a
    transaction it gave up on. The two park flags and the two auto-reset events are part of the
    state. `past` is history: no step depends on it. */
module HostSlot {
  import opened SlotTypes

  datatype Config = Config(maxReq: nat, maxResp: nat, seed: nat, stride: nat) {
    ghost predicate Valid() { maxReq < 0x8000_0000 && maxResp < 0x8000_0000 }
  }

  /** A request the host publishes: signed size, message type and the designated bytes. */
  datatype Request = Request(size: int32, typ: int, data: seq<byte>)

  /** What the worker publishes for a request. */
  datatype Answer =
    | Handled(seen: Request, typ: int, reply: seq<byte>)
    | Heartbeat
    | Shutdown
    | Refused                      // oversized request
    | Panicked                     // the handler panicked

  datatype Host =
    | HIdle
    | HGen(gen: nat)
    | HFree
    | HFreeBumped
    | HZombie(gen: nat, seen: SlotState)
    | HStealWon(seen: SlotState)
    | HOwn                         // owns the slot at BUSY
    | HWroteBuf(req: Request)
    | HWroteSize(req: Request)
    | HWroteType(req: Request)
    | HWroteSeq(req: Request, tx: nat)
    | HArmed(req: Request, tx: nat)      // activeWait set
    | HPrimed(req: Request, tx: nat)     // hostState ACTIVE, publishing store next
    | HPublished(req: Request, tx: nat)  // guestState load next
    | HSignal(req: Request, tx: nat)
    | HSpin(req: Request, tx: nat)
    | HSlept(req: Request, tx: nat)      // hostState WAITING, recheck next
    | HLoop(req: Request, tx: nat)
    | HBlocked(req: Request, tx: nat)
    | HWake(req: Request, tx: nat)       // hostState ACTIVE store next
    | HFinal(req: Request, tx: nat)
    | HReady(req: Request, tx: nat)      // observed RESP_READY, parking store next
    | HParked(req: Request, tx: nat)     // at BUSY, activeWait still set
    | HTimedOut(req: Request, tx: nat)
    | HDisowned(req: Request, tx: nat)
    | HRearmed(req: Request, tx: nat)    // waiting again for the same transaction
    | HCheck(req: Request, tx: nat)
    | HReadType(req: Request, tx: nat)
    | HReadSize(req: Request, tx: nat, typ: int)
    | HReadBuf(req: Request, tx: nat, typ: int, size: int32)
    | HRelease

  datatype Worker =
    | WTop                         // guestState ACTIVE store next
    | WSpin
    | WSlept                       // guestState WAITING, recheck next
    | WBlocked
    | WWoken                       // guestState ACTIVE store next
    | WFinal
    | WReady                       // observed REQ_READY
    | WBumped
    | WClaimed(tx: int)            // won the slot at GUEST_BUSY
    | WTyped(tx: int, typ: int)
    | WSized(tx: int, typ: int, size: int32)
    | WRun(tx: int, seen: Request, view: seq<byte>)
    | WPanicked(tx: int)
    | WAnswer(tx: int, ans: Answer, size: int32)
    | WLocked(tx: int, ans: Answer, size: int32)   // holds the publish lock at DONE
    | WWroteOne(tx: int, ans: Answer, size: int32)
    | WWroteBoth(tx: int, ans: Answer, size: int32)
    | WPublished(exit: bool)       // hostState load next
    | WSignal(exit: bool)
    | WExit

  datatype Entry =
    | Returned(req: Request, tx: nat, typ: int, bytes: seq<byte>)
    | SystemError(req: Request, tx: nat)
    | SeqMismatch
    | TimedOut

  datatype Mem = Mem(msgSeq: int, msgType: int, reqSize: int32, respSize: int32,
                     reqBuf: seq<byte>, respBuf: seq<byte>)

  /** Park flags and auto-reset events. */
  datatype Bells = Bells(hostWaiting: bool, guestWaiting: bool, reqEvent: bool, respEvent: bool)

  /** Header transaction, requests and answers published, outcomes, responses dropped because the
      slot was stolen, and failures of the second publish phase. */
  datatype Past = Past(hdrTx: int, requests: map<int, Request>, answers: map<int, Answer>,
                       log: seq<Entry>, dropped: nat, broken: nat)

  datatype State = State(
    state: SlotState, gen: nat, activeWait: bool, mem: Mem, bells: Bells, nextTx: nat,
    host: Host, worker: Worker, past: Past)

  function SeqOf(c: Config, tx: int): int {
    (c.seed + tx * c.stride) % SEQ_MODULUS
  }

  ghost predicate Sized(c: Config, m: Mem) {
    |m.reqBuf| == c.maxReq && |m.respBuf| == c.maxResp
  }

  ghost predicate Init(c: Config, s: State) {
    && c.Valid() && Sized(c, s.mem)
    && s.state == FREE && !s.activeWait && s.bells == Bells(false, false, false, false) && s.nextTx == 0
    && s.host == HIdle && s.worker == WTop && s.past == Past(-1, map[], map[], [], 0, 0)
  }

  predicate WellFormed(c: Config, r: Request) {
    |r.data| == UAbs(r.size) <= c.maxReq
  }

  function Logged(p: Past, e: Entry): Past { p.(log := p.log + [e]) }

  /** The bytes the host copies out: a size beyond the buffer is clamped to the whole buffer. */
  function Clamped(buf: seq<byte>, size: int32): seq<byte> {
    if UAbs(size) <= |buf| then Take(buf, size) else buf
  }

  // ---- Host steps ----

  predicate Stealable(st: SlotState) { st == RESP_READY || st == REQ_READY || st == GUEST_BUSY }

  /** tryClaimSlot, from scratch or over a transaction the host gave up on. */
  ghost predicate AcquireStep(c: Config, s: State, t: State) {
    match s.host
    case HIdle => t == s.(host := HGen(s.gen))
    case HDisowned(r, x) =>
      || t == s.(host := HGen(s.gen))
      || t == s.(host := HRearmed(r, x), activeWait := true)
    case HGen(g) =>
      if s.state == FREE then t == s.(host := HFree)
      else if Stealable(s.state) && !s.activeWait then t == s.(host := HZombie(g, s.state))
      else t == s.(host := HIdle)
    case HFree => t == s.(host := HFreeBumped, gen := s.gen + 1)
    case HFreeBumped =>
      if s.state == FREE then t == s.(host := HOwn, state := BUSY) else t == s.(host := HIdle)
    case HZombie(g, seen) =>
      if s.gen == g then t == s.(host := HStealWon(seen), gen := g + 1) else t == s.(host := HIdle)
    case HStealWon(seen) =>
      if s.state == seen then t == s.(host := HOwn, state := BUSY) else t == s.(host := HIdle)
    case _ => false
  }

  /** Filling the slot and publishing, with the doorbell for a parked worker. */
  ghost predicate SendStep(c: Config, s: State, t: State)
    requires Sized(c, s.mem)
  {
    var m := s.mem;
    match s.host
    case HOwn =>
      || t == s.(host := HRelease)                     // oversized request, or a held slot let go
      || exists r: Request :: WellFormed(c, r) && t == s.(host := HWroteBuf(r), mem := m.(reqBuf := Put(m.reqBuf, r.size, r.data)))
    case HWroteBuf(r) => t == s.(host := HWroteSize(r), mem := m.(reqSize := r.size))
    case HWroteSize(r) => t == s.(host := HWroteType(r), mem := m.(msgType := r.typ))
    case HWroteType(r) =>
      t == s.(host := HWroteSeq(r, s.nextTx), mem := m.(msgSeq := SeqOf(c, s.nextTx)), nextTx := s.nextTx + 1,
              past := s.past.(hdrTx := s.nextTx))
    case HWroteSeq(r, x) => t == s.(host := HArmed(r, x), activeWait := true)
    case HArmed(r, x) => t == s.(host := HPrimed(r, x), bells := s.bells.(hostWaiting := false))
    case HPrimed(r, x) =>
      t == s.(host := HPublished(r, x), state := REQ_READY, past := s.past.(requests := s.past.requests[x := r]))
    case HPublished(r, x) => t == s.(host := if s.bells.guestWaiting then HSignal(r, x) else HSpin(r, x))
    case HSignal(r, x) => t == s.(host := HSpin(r, x), bells := s.bells.(reqEvent := true))
    case _ => false
  }

  /** WaitForRespReady: spin, then park on the response event until ready or out of time. */
  ghost predicate WaitStep(c: Config, s: State, t: State) {
    var b := s.bells;
    match s.host
    case HRearmed(r, x) => t == s.(host := HSpin(r, x), bells := b.(hostWaiting := false))
    case HSpin(r, x) =>
      if s.state == RESP_READY then t == s.(host := HReady(r, x))
      else t == s || t == s.(host := HSlept(r, x), bells := b.(hostWaiting := true))
    case HSlept(r, x) => t == s.(host := if s.state == RESP_READY then HWake(r, x) else HLoop(r, x))
    case HLoop(r, x) =>
      if s.state == RESP_READY then t == s.(host := HWake(r, x))
      else t == s.(host := HWake(r, x)) || t == s.(host := HBlocked(r, x))
    case HBlocked(r, x) =>
      || (b.respEvent && t == s.(host := HLoop(r, x), bells := b.(respEvent := false)))
      || t == s.(host := HLoop(r, x))                  // the wait chunk elapsed
    case HWake(r, x) => t == s.(host := HFinal(r, x), bells := b.(hostWaiting := false))
    case HFinal(r, x) => t == s.(host := if s.state == RESP_READY then HReady(r, x) else HTimedOut(r, x))
    case HReady(r, x) => t == s.(host := HParked(r, x), state := BUSY)
    case HParked(r, x) => t == s.(host := HCheck(r, x), activeWait := false)
    case HTimedOut(r, x) => t == s.(host := HDisowned(r, x), activeWait := false, past := Logged(s.past, TimedOut))
    case _ => false
  }

  /** Reading the response; the slot is released, or kept by a held-slot session. */
  ghost predicate ReadStep(c: Config, s: State, t: State) {
    var m := s.mem;
    match s.host
    case HCheck(r, x) =>
      if m.msgSeq == SeqOf(c, x) then t == s.(host := HReadType(r, x))
      else t == s.(host := HRelease, past := Logged(s.past, SeqMismatch))
    case HReadType(r, x) =>
      if m.msgType == SYSTEM_ERROR then t == s.(host := HRelease, past := Logged(s.past, SystemError(r, x)))
      else t == s.(host := HReadSize(r, x, m.msgType))
    case HReadSize(r, x, typ) => t == s.(host := HReadBuf(r, x, typ, m.respSize))
    case HReadBuf(r, x, typ, size) =>
      var p := Logged(s.past, Returned(r, x, typ, Clamped(m.respBuf, size)));
      t == s.(host := HRelease, past := p) || t == s.(host := HOwn, past := p)
    case HRelease => t == s.(host := HIdle, state := FREE)
    case _ => false
  }

  // ---- Worker steps ----

  /** Watching for a request, parking on the request event, and the claiming CAS. */
  ghost predicate WatchStep(c: Config, s: State, t: State) {
    var b := s.bells;
    match s.worker
    case WTop => t == s.(worker := WSpin, bells := b.(guestWaiting := false))
    case WSpin =>
      || t == s.(worker := WExit)                      // closing
      || (if s.state == REQ_READY then t == s.(worker := WReady)
          else t == s || t == s.(worker := WSlept, bells := b.(guestWaiting := true)))
    case WSlept => t == s.(worker := if s.state == REQ_READY then WWoken else WBlocked)
    case WBlocked =>
      || (b.reqEvent && t == s.(worker := WWoken, bells := b.(reqEvent := false)))
      || t == s.(worker := WWoken)                     // 100 ms elapsed
    case WWoken =>
      || t == s.(worker := WFinal, bells := b.(guestWaiting := false))
      || t == s.(worker := WFinal)                     // closing
    case WFinal => t == s.(worker := if s.state == REQ_READY then WReady else WSpin)
    case WReady => t == s.(worker := WBumped, gen := s.gen + 1) || ClaimCas(s, t)
    case WBumped => ClaimCas(s, t)
    case _ => false
  }

  ghost predicate ClaimCas(s: State, t: State) {
    if s.state == REQ_READY then t == s.(worker := WClaimed(s.past.hdrTx), state := GUEST_BUSY)
    else t == s.(worker := WSpin)
  }

  /** Reading the request and running the handler. The handler looks at the live request buffer,
      so it may see it again at any moment. */
  ghost predicate HandleStep(c: Config, s: State, t: State)
    requires Sized(c, s.mem)
  {
    var m := s.mem;
    match s.worker
    case WClaimed(x) => t == s.(worker := WTyped(x, m.msgType))
    case WTyped(x, typ) =>
      if typ == SHUTDOWN then t == s.(worker := WAnswer(x, Shutdown, 0))
      else if typ == HEARTBEAT_REQ then t == s.(worker := WAnswer(x, Heartbeat, 0))
      else t == s.(worker := WSized(x, typ, m.reqSize))
    case WSized(x, typ, size) =>
      if UAbs(size) > c.maxReq then t == s.(worker := WAnswer(x, Refused, 0))
      else t == s.(worker := WRun(x, Request(size, typ, Take(m.reqBuf, size)), m.respBuf))
    case WRun(x, seen, view) =>
      || t == s.(worker := WPanicked(x))
      || (UAbs(seen.size) <= c.maxReq && t == s.(worker := WRun(x, seen.(data := Take(m.reqBuf, seen.size)), view)))
      || (exists bytes: seq<byte> :: |bytes| == c.maxResp && t == s.(worker := WRun(x, seen, bytes), mem := m.(respBuf := bytes)))
      || (exists size: int32, typ: int :: t == s.(worker := WAnswer(x, Handled(seen, typ, Clamped(view, size)), size)))
    case WPanicked(x) =>
      t == s.(worker := if s.state == GUEST_BUSY then WAnswer(x, Panicked, 0) else WTop)
    case _ => false
  }

  /** The two-phase publish, and the doorbell for a parked host. */
  ghost predicate RespondStep(c: Config, s: State, t: State) {
    var m := s.mem;
    match s.worker
    case WAnswer(x, ans, size) =>
      if s.state == GUEST_BUSY then t == s.(worker := WLocked(x, ans, size), state := DONE)
      else t == s.(worker := if ans.Shutdown? then WExit else WSpin, past := s.past.(dropped := s.past.dropped + 1))
    case WLocked(x, ans, size) =>
      t == s.(worker := WWroteOne(x, ans, size),
              mem := if ans.Heartbeat? then m.(msgType := HEARTBEAT_RESP)
                     else if ans.Panicked? then m.(msgType := SYSTEM_ERROR) else m.(respSize := size))
    case WWroteOne(x, ans, size) =>
      t == s.(worker := WWroteBoth(x, ans, size),
              mem := match ans
                     case Handled(_, typ, _) => m.(msgType := typ)
                     case Heartbeat => m.(respSize := 0)
                     case Shutdown => m
                     case Refused => m.(msgType := SYSTEM_ERROR)
                     case Panicked => m.(respSize := 0))
    case WWroteBoth(x, ans, size) =>
      if s.state == DONE then
        t == s.(worker := WPublished(ans.Shutdown?), state := RESP_READY, past := s.past.(answers := s.past.answers[s.past.hdrTx := ans]))
      else t == s.(worker := WSpin, past := s.past.(broken := s.past.broken + 1))
    case WPublished(exit) =>
      t == s.(worker := if s.bells.hostWaiting then WSignal(exit) else if exit then WExit else WSpin)
    case WSignal(exit) => t == s.(worker := if exit then WExit else WSpin, bells := s.bells.(respEvent := true))
    case _ => false
  }

  ghost predicate Next(c: Config, s: State, t: State) {
    && Sized(c, s.mem)
    && (|| AcquireStep(c, s, t) || SendStep(c, s, t) || WaitStep(c, s, t) || ReadStep(c, s, t)
        || WatchStep(c, s, t) || HandleStep(c, s, t) || RespondStep(c, s, t))
  }

  ghost predicate IsRun(c: Config, run: seq<State>) {
    && |run| > 0 && Init(c, run[0])
    && forall k :: 0 <= k < |run| - 1 ==> Next(c, run[k], run[k + 1])
  }
}
