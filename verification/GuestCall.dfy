/** One guest-call slot shared by any number of Go senders and any number of C++
    processors, as a transition system with one step per atomic access and one per
    plain header or buffer access. Lease reclaim is off and every consume is a CAS.
    `owner` and `past` are history: no step depends on them. */
module GuestCall {
  import opened SlotTypes

  /** Buffer capacities, the seed and stride of the slot's sequence counter, and whether a
      consuming handle or a claiming processor may skip its generation bump. */
  datatype Config = Config(maxReq: nat, maxResp: nat, seed: nat, stride: nat, fast: bool) {
    // NewDirectGuest refuses slots above 1 GiB, so every size fits an int32.
    ghost predicate Valid() {
      maxReq < 0x8000_0000 && maxResp < 0x8000_0000 && stride > 0
    }
  }

  /** What a caller asks for: signed size, message type, and the designated bytes
      (none when the size exceeds the request buffer). */
  datatype Request = Request(size: int32, typ: int, data: seq<byte>)

  /** What the responder made of a request: the request as the handler saw it with the bytes the
      handler left behind, or with a returned size beyond the buffer, or a refusal. */
  datatype Answer =
    | Handled(seen: Request, reply: seq<byte>)
    | Overflowed(seen: Request, returned: int32)
    | Refused

  datatype Sender =
    | SIdle
    | SSnap(gen: nat)              // Gen loaded
    | SFree                        // State was FREE
    | SFreeBumped                  // Gen bumped, claiming CAS next
    | SResp(gen: nat)              // State was RESP_READY
    | SZombie(gen: nat)            // ActiveWait was 0
    | SStealWon                    // Gen CAS won, stealing CAS next
    | SOwn                         // owns the slot at GUEST_BUSY
    | SWroteBuf(req: Request)
    | SWroteSize(req: Request)
    | SWroteType(req: Request)
    | SWroteSeq(req: Request, tx: nat)
    | SBumpedSeq(req: Request, tx: nat)
    | SArmed(req: Request, tx: nat)    // ActiveWait = 1, publishing store next
    | SWait(req: Request, tx: nat)
    | SReady(req: Request, tx: nat)    // observed RESP_READY
    | SReadyBumped(req: Request, tx: nat)
    | SConsumed(req: Request, tx: nat) // consume CAS won, ActiveWait still 1
    | SLost(req: Request, tx: nat)     // consume CAS lost, ActiveWait still 1
    | STimedOut(req: Request, tx: nat)
    | SCheck(req: Request, tx: nat)
    | SReadType(req: Request, tx: nat)
    | SReadSize(req: Request, tx: nat)
    | SReadBuf(req: Request, tx: nat, size: int32)
    | SRelease

  datatype Processor =
    | PIdle
    | PSaw                         // State was REQ_READY
    | PBumped
    | PClaimed                     // owns the slot at BUSY
    | PSized(size: int32)
    | PTyped(size: int32, typ: int)
    | PRun(seen: Request, view: seq<byte>)  // handler running, with what it sees of the response buffer
    | PAnswer(ans: Answer, size: int32)     // handler done, publish lock next
    | PLocked(ans: Answer, size: int32)     // owns the slot at DONE
    | PWroteOne(ans: Answer, size: int32)
    | PWroteBoth(ans: Answer, size: int32)

  datatype Owner = Nobody | BySender(i: nat) | ByProcessor(j: nat)

  datatype Entry =
    | Returned(sender: nat, req: Request, tx: nat, carrier: int, bytes: seq<byte>)
    | SystemError(sender: nat, req: Request, tx: nat, carrier: int)
    | BadSize(sender: nat)
    | SeqMismatch(sender: nat)
    | Forfeited(sender: nat)

  /** Memory read and written by plain accesses: the header fields, the two buffers,
      and the guest's own sequence counter (`nextTx` requests numbered so far). */
  datatype Mem = Mem(msgSeq: int, msgType: int, reqSize: int32, respSize: int32,
                     reqBuf: seq<byte>, respBuf: seq<byte>, nextTx: nat)

  /** The transaction whose number the header carries, every request published,
      every answer published, every call outcome, and every failed publish. */
  datatype Past = Past(hdrTx: int, requests: map<int, Request>, answers: map<int, Answer>,
                       log: seq<Entry>, dropped: nat)

  datatype State = State(
    state: SlotState, gen: nat, activeWait: bool, mem: Mem,
    senders: seq<Sender>, procs: seq<Processor>,
    owner: Owner, past: Past)

  /** The value of the slot's wrapping counter for its tx-th request. */
  function SeqOf(c: Config, tx: int): int {
    (c.seed + tx * c.stride) % SEQ_MODULUS
  }

  ghost predicate Init(c: Config, s: State) {
    && c.Valid()
    && s.state == FREE && !s.activeWait && s.mem.nextTx == 0 && Sized(c, s.mem)
    && (forall i :: 0 <= i < |s.senders| ==> s.senders[i] == SIdle)
    && (forall j :: 0 <= j < |s.procs| ==> s.procs[j] == PIdle)
    && s.owner == Nobody && s.past == Past(-1, map[], map[], [], 0)
  }

  ghost predicate Sized(c: Config, m: Mem) {
    |m.reqBuf| == c.maxReq && |m.respBuf| == c.maxResp
  }

  // ---- Sender steps ----

  function At(s: State, i: nat, pc: Sender): State
    requires i < |s.senders|
  {
    s.(senders := s.senders[i := pc])
  }

  /** tryClaimGuestSlot: snapshot Gen, look at State, bump or CAS Gen, CAS State. */
  ghost predicate ClaimStep(c: Config, s: State, i: nat, t: State)
    requires i < |s.senders|
  {
    match s.senders[i]
    case SIdle => t == At(s, i, SSnap(s.gen))
    case SSnap(g) =>
      t == At(s, i, match s.state case FREE => SFree case RESP_READY => SResp(g) case _ => SIdle)
    case SFree => t == At(s, i, SFreeBumped).(gen := s.gen + 1)
    case SFreeBumped =>
      if s.state == FREE then t == At(s, i, SOwn).(state := GUEST_BUSY, owner := BySender(i))
      else t == At(s, i, SIdle)
    case SResp(g) => t == At(s, i, if s.activeWait then SIdle else SZombie(g))
    case SZombie(g) =>
      if s.gen == g then t == At(s, i, SStealWon).(gen := g + 1) else t == At(s, i, SIdle)
    case SStealWon =>
      if s.state == RESP_READY then t == At(s, i, SOwn).(state := GUEST_BUSY, owner := BySender(i))
      else t == At(s, i, SIdle)
    case _ => false
  }

  /** The size test of both send paths, on an int32 whose negation may wrap. */
  predicate SizeAccepted(c: Config, size: int32) {
    (if size == -0x8000_0000 then size else UAbs(size)) <= c.maxReq
  }

  /** A well-formed request: its data is what its size designates, when that fits. */
  predicate WellFormed(c: Config, r: Request) {
    if UAbs(r.size) <= c.maxReq then |r.data| == UAbs(r.size) else r.data == []
  }

  /** From owning the slot to publishing the request. */
  ghost predicate SendStep(c: Config, s: State, i: nat, t: State)
    requires i < |s.senders| && Sized(c, s.mem)
  {
    var m := s.mem;
    match s.senders[i]
    case SOwn =>
      // oversized data, or a handle that is released or sends its request
      || t == At(s, i, SRelease)
      || exists r: Request :: WellFormed(c, r) && SizeAccepted(c, r.size)
           && t == At(s, i, SWroteBuf(r)).(mem := if UAbs(r.size) <= c.maxReq then m.(reqBuf := Put(m.reqBuf, r.size, r.data)) else m)
    case SWroteBuf(r) => t == At(s, i, SWroteSize(r)).(mem := m.(reqSize := r.size))
    case SWroteSize(r) => t == At(s, i, SWroteType(r)).(mem := m.(msgType := r.typ))
    case SWroteType(r) =>
      t == At(s, i, SWroteSeq(r, m.nextTx)).(mem := m.(msgSeq := SeqOf(c, m.nextTx)), past := s.past.(hdrTx := m.nextTx))
    case SWroteSeq(r, x) => t == At(s, i, SBumpedSeq(r, x)).(mem := m.(nextTx := m.nextTx + 1))
    case SBumpedSeq(r, x) => t == At(s, i, SArmed(r, x)).(activeWait := true)
    case SArmed(r, x) =>
      t == At(s, i, SWait(r, x)).(state := REQ_READY, owner := Nobody, past := s.past.(requests := s.past.requests[x := r]))
    case _ => false
  }

  function Logged(p: Past, e: Entry): Past { p.(log := p.log + [e]) }

  /** Waiting, timing out, and the consume-claim. */
  ghost predicate WaitStep(c: Config, s: State, i: nat, t: State)
    requires i < |s.senders|
  {
    match s.senders[i]
    case SWait(r, x) =>
      if s.state == RESP_READY then t == At(s, i, SReady(r, x))
      else t == s || t == At(s, i, STimedOut(r, x))
    case SReady(r, x) =>
      || t == At(s, i, SReadyBumped(r, x)).(gen := s.gen + 1)
      || (c.fast && ConsumeCas(s, i, r, x, t))
    case SReadyBumped(r, x) => ConsumeCas(s, i, r, x, t)
    case SConsumed(r, x) => t == At(s, i, SCheck(r, x)).(activeWait := false)
    case SLost(r, x) => t == At(s, i, SIdle).(activeWait := false, past := Logged(s.past, Forfeited(i)))
    case STimedOut(r, x) => t == At(s, i, SIdle).(activeWait := false, past := Logged(s.past, Forfeited(i)))
    case _ => false
  }

  ghost predicate ConsumeCas(s: State, i: nat, r: Request, x: nat, t: State)
    requires i < |s.senders|
  {
    if s.state == RESP_READY then
      t == At(s, i, SConsumed(r, x)).(state := GUEST_BUSY, owner := BySender(i))
    else
      t == At(s, i, SLost(r, x))
  }

  /** Reading the response and releasing the slot; a handle may also keep it. */
  ghost predicate ReadStep(c: Config, s: State, i: nat, t: State)
    requires i < |s.senders| && Sized(c, s.mem)
  {
    var m := s.mem;
    match s.senders[i]
    case SCheck(r, x) =>
      if m.msgSeq == SeqOf(c, x) then t == At(s, i, SReadType(r, x))
      else Finish(s, i, SeqMismatch(i), t)
    case SReadType(r, x) =>
      if m.msgType == SYSTEM_ERROR then Finish(s, i, SystemError(i, r, x, s.past.hdrTx), t)
      else t == At(s, i, SReadSize(r, x))
    case SReadSize(r, x) =>
      if UAbs(m.respSize) > c.maxResp then Finish(s, i, BadSize(i), t)
      else t == At(s, i, SReadBuf(r, x, m.respSize))
    case SReadBuf(r, x, size) =>
      && UAbs(size) <= c.maxResp
      && Finish(s, i, Returned(i, r, x, s.past.hdrTx, Take(m.respBuf, size)), t)
    case SRelease =>
      if s.state == GUEST_BUSY then t == At(s, i, SIdle).(state := FREE, owner := Nobody)
      else t == At(s, i, SIdle)
    case _ => false
  }

  ghost predicate Finish(s: State, i: nat, e: Entry, t: State)
    requires i < |s.senders|
  {
    exists pc: Sender :: (pc == SRelease || pc == SOwn) && t == At(s, i, pc).(past := Logged(s.past, e))
  }

  // ---- Processor steps ----

  function AtP(s: State, j: nat, pc: Processor): State
    requires j < |s.procs|
  {
    s.(procs := s.procs[j := pc])
  }

  /** Claiming a request and reading it, up to the handler call. */
  ghost predicate ServeStep(c: Config, s: State, j: nat, t: State)
    requires j < |s.procs| && Sized(c, s.mem)
  {
    match s.procs[j]
    case PIdle => if s.state == REQ_READY then t == AtP(s, j, PSaw) else t == s
    case PSaw => t == AtP(s, j, PBumped).(gen := s.gen + 1) || (c.fast && ServeCas(s, j, t))
    case PBumped => ServeCas(s, j, t)
    case PClaimed => t == AtP(s, j, PSized(s.mem.reqSize))
    case PSized(size) =>
      if UAbs(size) > c.maxReq then t == AtP(s, j, PAnswer(Refused, 0))
      else t == AtP(s, j, PTyped(size, s.mem.msgType))
    case PTyped(size, typ) =>
      && UAbs(size) <= c.maxReq
      && t == AtP(s, j, PRun(Request(size, typ, Take(s.mem.reqBuf, size)), s.mem.respBuf))
    case _ => false
  }

  ghost predicate ServeCas(s: State, j: nat, t: State)
    requires j < |s.procs|
  {
    if s.state == REQ_READY then t == AtP(s, j, PClaimed).(state := BUSY, owner := ByProcessor(j))
    else t == AtP(s, j, PIdle)
  }

  /** The handler writes what it likes and returns any int32; then the two-phase publish. */
  ghost predicate AnswerStep(c: Config, s: State, j: nat, t: State)
    requires j < |s.procs|
  {
    match s.procs[j]
    case PRun(seen, view) =>
      || (exists bytes: seq<byte> :: |bytes| == c.maxResp
            && t == AtP(s, j, PRun(seen, bytes)).(mem := s.mem.(respBuf := bytes)))
      || (exists size: int32 ::
            if UAbs(size) > c.maxResp then t == AtP(s, j, PAnswer(Overflowed(seen, size), 0))
            else |view| == c.maxResp && t == AtP(s, j, PAnswer(Handled(seen, Take(view, size)), size)))
    case PAnswer(ans, size) =>
      if s.state == BUSY then t == AtP(s, j, PLocked(ans, size)).(state := DONE)
      else t == AtP(s, j, PIdle).(past := s.past.(dropped := s.past.dropped + 1))
    case PLocked(ans, size) =>
      t == (match ans
            case Refused => AtP(s, j, PWroteOne(ans, size)).(mem := s.mem.(respSize := 0))
            case Overflowed(_, _) => AtP(s, j, PWroteOne(ans, size)).(mem := s.mem.(msgType := SYSTEM_ERROR))
            case Handled(_, _) => AtP(s, j, PWroteOne(ans, size)))
    case PWroteOne(ans, size) =>
      t == (match ans
            case Refused => AtP(s, j, PWroteBoth(ans, size)).(mem := s.mem.(msgType := SYSTEM_ERROR))
            case _ => AtP(s, j, PWroteBoth(ans, size)).(mem := s.mem.(respSize := size)))
    case PWroteBoth(ans, size) =>
      if s.state == DONE then
        t == AtP(s, j, PIdle).(state := RESP_READY, owner := Nobody, past := s.past.(answers := s.past.answers[s.past.hdrTx := ans]))
      else t == AtP(s, j, PIdle).(past := s.past.(dropped := s.past.dropped + 1))
    case _ => false
  }

  ghost predicate Next(c: Config, s: State, t: State) {
    && Sized(c, s.mem)
    && ((exists i: nat :: i < |s.senders| && SenderStep(c, s, i, t))
        || (exists j: nat :: j < |s.procs| && ProcessorStep(c, s, j, t)))
  }

  ghost predicate SenderStep(c: Config, s: State, i: nat, t: State)
    requires i < |s.senders| && Sized(c, s.mem)
  {
    ClaimStep(c, s, i, t) || SendStep(c, s, i, t) || WaitStep(c, s, i, t) || ReadStep(c, s, i, t)
  }

  ghost predicate ProcessorStep(c: Config, s: State, j: nat, t: State)
    requires j < |s.procs| && Sized(c, s.mem)
  {
    ServeStep(c, s, j, t) || AnswerStep(c, s, j, t)
  }

  /** A finite run: starts in an initial state and takes one step at a time. */
  ghost predicate IsRun(c: Config, run: seq<State>) {
    && |run| > 0 && Init(c, run[0])
    && forall k :: 0 <= k < |run| - 1 ==> Next(c, run[k], run[k + 1])
  }
}
