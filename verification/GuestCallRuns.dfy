/** Runs of the guest-call slot, built step by step: a call claims the slot, publishes any request
    that fits, a processor's handler leaves any reply, and the call takes it. */
module GuestCallRuns {
  import opened SlotTypes
  import opened GuestCall
  import opened GuestCallInvariant

  ghost predicate RunOf(c: Config, n: nat, m: nat, run: seq<State>) {
    IsRun(c, run) && |run[0].senders| == n && |run[0].procs| == m
  }

  function Last(run: seq<State>): State
    requires |run| > 0
  {
    run[|run| - 1]
  }

  lemma {:induction false} ExtendS(c: Config, run: seq<State>, i: nat, t: State) returns (longer: seq<State>)
    requires |run| > 0 && IsRun(c, run) && i < |Last(run).senders| && Sized(c, Last(run).mem) && SenderStep(c, Last(run), i, t)
    ensures |longer| > 0 && IsRun(c, longer) && Last(longer) == t && longer[0] == run[0]
  {
    hide SenderStep, Init, ProcessorStep;
    longer := run + [t];
    assert Next(c, Last(run), t);
    assert forall k :: 0 <= k < |longer| - 1 ==> longer[k] == run[k] && Next(c, longer[k], longer[k + 1]);
  }

  lemma {:induction false} ExtendP(c: Config, run: seq<State>, j: nat, t: State) returns (longer: seq<State>)
    requires |run| > 0 && IsRun(c, run) && j < |Last(run).procs| && Sized(c, Last(run).mem) && ProcessorStep(c, Last(run), j, t)
    ensures |longer| > 0 && IsRun(c, longer) && Last(longer) == t && longer[0] == run[0]
  {
    hide SenderStep, Init, ProcessorStep;
    longer := run + [t];
    assert Next(c, Last(run), t);
    assert forall k :: 0 <= k < |longer| - 1 ==> longer[k] == run[k] && Next(c, longer[k], longer[k + 1]);
  }

  /** What the moves below leave alone or set. */
  ghost predicate Rest(c: Config, s: State, t: State, state: SlotState, wait: bool) {
    && t.state == state && t.activeWait == wait && t.procs == s.procs && Sized(c, t.mem)
  }

  /** The header carries transaction x of the counter. */
  ghost predicate Carries(c: Config, s: State, x: nat) {
    s.mem.msgSeq == SeqOf(c, x) && s.past.hdrTx == x && s.mem.nextTx == x + 1
  }

  /** A request both send paths let through, and one the slot can hold. */
  predicate Accepted(c: Config, r: Request) { WellFormed(c, r) && SizeAccepted(c, r.size) }
  predicate Fits(c: Config, r: Request) { WellFormed(c, r) && UAbs(r.size) <= c.maxReq }

  /** What a handler does: the bytes it leaves in the response buffer and the size it returns. */
  datatype Reply = Reply(bytes: seq<byte>, size: int32)

  predicate Sound(c: Config, y: Reply) { |y.bytes| == c.maxResp && UAbs(y.size) <= c.maxResp }

  function BytesOf(c: Config, y: Reply): seq<byte>
    requires Sound(c, y)
  {
    Take(y.bytes, y.size)
  }

  const EMPTY: Request := Request(0, 0, [])

  function Nothing(c: Config): (y: Reply)
    ensures Sound(c, y)
  {
    Reply(seq(c.maxResp, _ => 0), 0)
  }

  lemma StartState(c: Config, n: nat, m: nat) returns (run: seq<State>)
    requires c.Valid()
    ensures |run| > 0 && RunOf(c, n, m, run) && Init(c, Last(run)) && Last(run) == run[0]
  {
    var mem := Mem(0, 0, 0, 0, seq(c.maxReq, _ => 0), seq(c.maxResp, _ => 0), 0);
    run := [State(FREE, 0, false, mem, seq(n, _ => SIdle), seq(m, _ => PIdle), Nobody, Past(-1, map[], map[], [], 0))];
  }

  /** A sender claims the free slot. */
  lemma Claims(c: Config, run: seq<State>, i: nat) returns (longer: seq<State>)
    requires |run| > 0 && IsRun(c, run) && Sized(c, Last(run).mem) && i < |Last(run).senders|
    requires Last(run).state == FREE && Last(run).senders[i] == SIdle
    ensures |longer| > 0 && IsRun(c, longer) && longer[0] == run[0]
    ensures Rest(c, Last(run), Last(longer), GUEST_BUSY, Last(run).activeWait) && Last(longer).mem == Last(run).mem
    ensures Last(longer).senders == Last(run).senders[i := SOwn]
  {
    hide IsRun, SendStep, WaitStep, ReadStep;
    var s := Last(run);
    var s1 := At(s, i, SSnap(s.gen));
    longer := ExtendS(c, run, i, s1);
    var s2 := At(s1, i, SFree);
    longer := ExtendS(c, longer, i, s2);
    var s3 := At(s2, i, SFreeBumped).(gen := s.gen + 1);
    longer := ExtendS(c, longer, i, s3);
    var s4 := At(s3, i, SOwn).(state := GUEST_BUSY, owner := BySender(i));
    longer := ExtendS(c, longer, i, s4);
    assert s4.senders == s.senders[i := SOwn];
  }

  /** An owner writes its request and header. */
  lemma Writes(c: Config, run: seq<State>, i: nat, r: Request) returns (longer: seq<State>)
    requires |run| > 0 && IsRun(c, run) && i < |Last(run).senders| && Last(run).senders[i] == SOwn && Sized(c, Last(run).mem)
    requires Accepted(c, r)
    ensures |longer| > 0 && IsRun(c, longer) && longer[0] == run[0]
    ensures Rest(c, Last(run), Last(longer), Last(run).state, Last(run).activeWait)
    ensures Last(longer).senders == Last(run).senders[i := SWroteType(r)]
    ensures RequestInMemory(c, Last(longer).mem, r) && Last(longer).mem.nextTx == Last(run).mem.nextTx
  {
    hide SeqOf, IsRun, Init, ClaimStep, WaitStep, ReadStep;
    var s := Last(run);
    var m := if UAbs(r.size) <= c.maxReq then s.mem.(reqBuf := Put(s.mem.reqBuf, r.size, r.data)) else s.mem;
    var s1 := At(s, i, SWroteBuf(r)).(mem := m);
    assert SendStep(c, s, i, s1);
    longer := ExtendS(c, run, i, s1);
    var s2 := At(s1, i, SWroteSize(r)).(mem := s1.mem.(reqSize := r.size));
    longer := ExtendS(c, longer, i, s2);
    var s3 := At(s2, i, SWroteType(r)).(mem := s2.mem.(msgType := r.typ));
    longer := ExtendS(c, longer, i, s3);
  }

  /** It numbers the request, arms and publishes it. */
  lemma Publishes(c: Config, run: seq<State>, i: nat, r: Request) returns (longer: seq<State>, x: nat)
    requires |run| > 0 && IsRun(c, run) && i < |Last(run).senders| && Last(run).senders[i] == SOwn && Sized(c, Last(run).mem)
    requires Accepted(c, r)
    ensures |longer| > 0 && IsRun(c, longer) && longer[0] == run[0] && Rest(c, Last(run), Last(longer), REQ_READY, true)
    ensures Last(longer).senders == Last(run).senders[i := SWait(r, x)]
    ensures x == Last(run).mem.nextTx && Carries(c, Last(longer), x) && RequestInMemory(c, Last(longer).mem, r)
  {
    hide SeqOf, IsRun, Init, ClaimStep, WaitStep, ReadStep;
    longer := Writes(c, run, i, r);
    var s := Last(longer);
    x := s.mem.nextTx;
    var s1 := At(s, i, SWroteSeq(r, x)).(mem := s.mem.(msgSeq := SeqOf(c, x)), past := s.past.(hdrTx := x));
    longer := ExtendS(c, longer, i, s1);
    var s2 := At(s1, i, SBumpedSeq(r, x)).(mem := s1.mem.(nextTx := x + 1));
    longer := ExtendS(c, longer, i, s2);
    var s3 := At(s2, i, SArmed(r, x)).(activeWait := true);
    longer := ExtendS(c, longer, i, s3);
    var s4 := At(s3, i, SWait(r, x)).(state := REQ_READY, owner := Nobody, past := s3.past.(requests := s3.past.requests[x := r]));
    longer := ExtendS(c, longer, i, s4);
  }

  /** A processor claims the request and reads it. */
  lemma Serves(c: Config, run: seq<State>, j: nat, r: Request) returns (longer: seq<State>)
    requires |run| > 0 && IsRun(c, run) && j < |Last(run).procs| && Last(run).procs[j] == PIdle && Sized(c, Last(run).mem)
    requires Last(run).state == REQ_READY && Fits(c, r) && RequestInMemory(c, Last(run).mem, r)
    ensures |longer| > 0 && IsRun(c, longer) && longer[0] == run[0]
    ensures var s, t := Last(run), Last(longer);
      && t.state == BUSY && t.activeWait == s.activeWait && t.senders == s.senders && t.mem == s.mem
      && t.past == s.past && t.procs == s.procs[j := PRun(r, s.mem.respBuf)]
  {
    hide IsRun, Init, SenderStep;
    var s := Last(run);
    longer := ExtendP(c, run, j, AtP(s, j, PSaw));
    var s1 := AtP(AtP(s, j, PSaw), j, PBumped).(gen := s.gen + 1);
    longer := ExtendP(c, longer, j, s1);
    var s2 := AtP(s1, j, PClaimed).(state := BUSY, owner := ByProcessor(j));
    longer := ExtendP(c, longer, j, s2);
    var s3 := AtP(s2, j, PSized(r.size));
    longer := ExtendP(c, longer, j, s3);
    var s4 := AtP(s3, j, PTyped(r.size, r.typ));
    longer := ExtendP(c, longer, j, s4);
    var s5 := AtP(s4, j, PRun(r, s.mem.respBuf));
    longer := ExtendP(c, longer, j, s5);
    assert s5.procs == s.procs[j := PRun(r, s.mem.respBuf)];
  }

  /** Its handler leaves some bytes and returns a size that fits. */
  lemma Handles(c: Config, run: seq<State>, j: nat, y: Reply) returns (longer: seq<State>)
    requires |run| > 0 && IsRun(c, run) && j < |Last(run).procs| && Sized(c, Last(run).mem) && Sound(c, y)
    requires Last(run).procs[j].PRun?
    ensures |longer| > 0 && IsRun(c, longer) && longer[0] == run[0]
    ensures var s := Last(run);
      Last(longer) == AtP(s, j, PAnswer(Handled(s.procs[j].seen, BytesOf(c, y)), y.size)).(mem := s.mem.(respBuf := y.bytes))
  {
    hide IsRun, Init, SenderStep;
    var s := Last(run);
    var seen := s.procs[j].seen;
    var s1 := AtP(s, j, PRun(seen, y.bytes)).(mem := s.mem.(respBuf := y.bytes));
    assert AnswerStep(c, s, j, s1);
    longer := ExtendP(c, run, j, s1);
    var s2 := AtP(s1, j, PAnswer(Handled(seen, BytesOf(c, y)), y.size));
    assert AnswerStep(c, s1, j, s2);
    longer := ExtendP(c, longer, j, s2);
    assert s2.procs == s.procs[j := PAnswer(Handled(seen, BytesOf(c, y)), y.size)];
  }

  /** Or one that does not. */
  lemma Overflows(c: Config, run: seq<State>, j: nat, size: int32) returns (longer: seq<State>)
    requires |run| > 0 && IsRun(c, run) && j < |Last(run).procs| && Sized(c, Last(run).mem) && UAbs(size) > c.maxResp
    requires Last(run).procs[j].PRun?
    ensures |longer| > 0 && IsRun(c, longer) && longer[0] == run[0]
    ensures Last(longer) == AtP(Last(run), j, PAnswer(Overflowed(Last(run).procs[j].seen, size), 0))
  {
    hide IsRun, Init, SenderStep;
    var t := AtP(Last(run), j, PAnswer(Overflowed(Last(run).procs[j].seen, size), 0));
    assert AnswerStep(c, Last(run), j, t);
    longer := ExtendP(c, run, j, t);
  }

  /** A request that does not fit is refused unread. */
  lemma Refuses(c: Config, run: seq<State>, j: nat, r: Request) returns (longer: seq<State>)
    requires |run| > 0 && IsRun(c, run) && j < |Last(run).procs| && Last(run).procs[j] == PIdle && Sized(c, Last(run).mem)
    requires Last(run).state == REQ_READY && UAbs(r.size) > c.maxReq && RequestInMemory(c, Last(run).mem, r)
    ensures |longer| > 0 && IsRun(c, longer) && longer[0] == run[0]
    ensures var s, t := Last(run), Last(longer);
      && t.state == BUSY && t.activeWait == s.activeWait && t.senders == s.senders && t.mem == s.mem
      && t.past == s.past && t.procs == s.procs[j := PAnswer(Refused, 0)]
  {
    hide IsRun, Init, SenderStep;
    var s := Last(run);
    longer := ExtendP(c, run, j, AtP(s, j, PSaw));
    var s1 := AtP(AtP(s, j, PSaw), j, PBumped).(gen := s.gen + 1);
    longer := ExtendP(c, longer, j, s1);
    var s2 := AtP(s1, j, PClaimed).(state := BUSY, owner := ByProcessor(j));
    longer := ExtendP(c, longer, j, s2);
    var s3 := AtP(s2, j, PSized(r.size));
    longer := ExtendP(c, longer, j, s3);
    var s4 := AtP(s3, j, PAnswer(Refused, 0));
    longer := ExtendP(c, longer, j, s4);
    assert s4.procs == s.procs[j := PAnswer(Refused, 0)];
  }

  /** The header once an answer is written under the lock. */
  function Headed(m: Mem, ans: Answer, size: int32): Mem {
    if ans.Handled? then m.(respSize := size) else m.(msgType := SYSTEM_ERROR, respSize := 0)
  }

  /** It publishes the answer. */
  lemma Responds(c: Config, run: seq<State>, j: nat) returns (longer: seq<State>)
    requires |run| > 0 && IsRun(c, run) && j < |Last(run).procs| && Sized(c, Last(run).mem) && Last(run).state == BUSY
    requires Last(run).procs[j].PAnswer? && (!Last(run).procs[j].ans.Handled? ==> Last(run).procs[j].size == 0)
    ensures |longer| > 0 && IsRun(c, longer) && longer[0] == run[0]
    ensures var s, t := Last(run), Last(longer);
      && t.state == RESP_READY && t.activeWait == s.activeWait && t.senders == s.senders
      && t.mem == Headed(s.mem, s.procs[j].ans, s.procs[j].size) && t.procs == s.procs[j := PIdle]
      && t.past == s.past.(answers := s.past.answers[s.past.hdrTx := s.procs[j].ans])
  {
    hide IsRun, Init, SenderStep, ServeStep;
    var s := Last(run);
    var ans, size := s.procs[j].ans, s.procs[j].size;
    var s1 := AtP(s, j, PLocked(ans, size)).(state := DONE);
    longer := ExtendP(c, run, j, s1);
    var m := if ans.Refused? then s.mem.(respSize := 0) else if ans.Overflowed? then s.mem.(msgType := SYSTEM_ERROR) else s.mem;
    var s2 := AtP(s1, j, PWroteOne(ans, size)).(mem := m);
    longer := ExtendP(c, longer, j, s2);
    var s3 := AtP(s2, j, PWroteBoth(ans, size)).(mem := Headed(s.mem, ans, size));
    longer := ExtendP(c, longer, j, s3);
    var s4 := AtP(s3, j, PIdle).(state := RESP_READY, owner := Nobody, past := s3.past.(answers := s3.past.answers[s3.past.hdrTx := ans]));
    longer := ExtendP(c, longer, j, s4);
  }

  /** The response of transaction x to r is in the slot. */
  ghost predicate Replied(c: Config, s: State, r: Request, x: nat, y: Reply) {
    Carries(c, s, x) && s.mem.msgType == r.typ && s.mem.respSize == y.size && s.mem.respBuf == y.bytes
  }

  /** A processor answers the pending request. */
  lemma Answers(c: Config, run: seq<State>, r: Request, x: nat, y: Reply) returns (longer: seq<State>)
    requires |run| > 0 && IsRun(c, run) && |Last(run).procs| > 0 && Last(run).procs[0] == PIdle && Sized(c, Last(run).mem)
    requires Last(run).state == REQ_READY && Fits(c, r) && RequestInMemory(c, Last(run).mem, r) && Carries(c, Last(run), x)
    requires Sound(c, y)
    ensures |longer| > 0 && IsRun(c, longer) && longer[0] == run[0]
    ensures Rest(c, Last(run), Last(longer), RESP_READY, Last(run).activeWait)
    ensures Last(longer).senders == Last(run).senders && Replied(c, Last(longer), r, x, y)
  {
    hide IsRun, Init, SeqOf;
    longer := Serves(c, run, 0, r);
    longer := Handles(c, longer, 0, y);
    longer := Responds(c, longer, 0);
    assert Last(longer).procs == Last(run).procs;
  }

  /** One whole exchange: the owner publishes, the processor answers, the owner waits. */
  lemma Exchange(c: Config, run: seq<State>, i: nat, r: Request, y: Reply) returns (longer: seq<State>, x: nat)
    requires |run| > 0 && IsRun(c, run) && i < |Last(run).senders| && Last(run).senders[i] == SOwn && Sized(c, Last(run).mem)
    requires |Last(run).procs| > 0 && Last(run).procs[0] == PIdle && c.Valid() && Fits(c, r) && Sound(c, y)
    ensures |longer| > 0 && IsRun(c, longer) && longer[0] == run[0] && Rest(c, Last(run), Last(longer), RESP_READY, true)
    ensures Last(longer).senders == Last(run).senders[i := SWait(r, x)]
    ensures x == Last(run).mem.nextTx && Replied(c, Last(longer), r, x, y)
  {
    hide IsRun, Init, SeqOf;
    longer, x := Publishes(c, run, i, r);
    longer := Answers(c, longer, r, x, y);
  }

  /** A waiter with a response consumes it and keeps the slot. */
  lemma Consumes(c: Config, run: seq<State>, i: nat) returns (longer: seq<State>)
    requires |run| > 0 && IsRun(c, run) && i < |Last(run).senders| && Last(run).senders[i].SWait? && Sized(c, Last(run).mem)
    requires Last(run).state == RESP_READY
    ensures |longer| > 0 && IsRun(c, longer) && longer[0] == run[0] && Rest(c, Last(run), Last(longer), GUEST_BUSY, false)
    ensures Last(longer).mem == Last(run).mem && Last(longer).past == Last(run).past
    ensures var pc := Last(run).senders[i]; Last(longer).senders == Last(run).senders[i := SCheck(pc.req, pc.tx)]
  {
    hide SeqOf, IsRun, Init, ClaimStep, SendStep, ReadStep;
    var s := Last(run);
    var r, x := s.senders[i].req, s.senders[i].tx;
    var s1 := At(s, i, SReady(r, x));
    longer := ExtendS(c, run, i, s1);
    var s2 := At(s1, i, SReadyBumped(r, x)).(gen := s.gen + 1);
    longer := ExtendS(c, longer, i, s2);
    var s3 := At(s2, i, SConsumed(r, x)).(state := GUEST_BUSY, owner := BySender(i));
    longer := ExtendS(c, longer, i, s3);
    var s4 := At(s3, i, SCheck(r, x)).(activeWait := false);
    longer := ExtendS(c, longer, i, s4);
    assert Last(longer).senders == s.senders[i := SCheck(r, x)];
  }

  /** Whatever it reads, it ends up holding the slot. */
  lemma Keeps(c: Config, run: seq<State>, i: nat) returns (longer: seq<State>)
    requires |run| > 0 && IsRun(c, run) && i < |Last(run).senders| && Sized(c, Last(run).mem)
    requires var pc := Last(run).senders[i]; pc.SCheck? || pc.SReadType? || pc.SReadSize? || (pc.SReadBuf? && UAbs(pc.size) <= c.maxResp)
    ensures |longer| > 0 && IsRun(c, longer) && longer[0] == run[0]
    ensures Rest(c, Last(run), Last(longer), Last(run).state, Last(run).activeWait)
    ensures Last(longer).senders == Last(run).senders[i := SOwn] && Last(longer).mem == Last(run).mem
    decreases var pc := Last(run).senders[i]; if pc.SCheck? then 3 else if pc.SReadType? then 2 else if pc.SReadSize? then 1 else 0
  {
    hide SeqOf, IsRun, Init, ClaimStep, SendStep, WaitStep;
    var s := Last(run);
    var m, pc := s.mem, s.senders[i];
    var r, x := pc.req, pc.tx;
    var e: Entry;
    if pc.SCheck? {
      if m.msgSeq == SeqOf(c, x) {
        longer := ExtendS(c, run, i, At(s, i, SReadType(r, x)));
        longer := Keeps(c, longer, i);
        return;
      }
      e := SeqMismatch(i);
    } else if pc.SReadType? {
      if m.msgType != SYSTEM_ERROR {
        longer := ExtendS(c, run, i, At(s, i, SReadSize(r, x)));
        longer := Keeps(c, longer, i);
        return;
      }
      e := SystemError(i, r, x, s.past.hdrTx);
    } else if pc.SReadSize? {
      if UAbs(m.respSize) <= c.maxResp {
        longer := ExtendS(c, run, i, At(s, i, SReadBuf(r, x, m.respSize)));
        longer := Keeps(c, longer, i);
        return;
      }
      e := BadSize(i);
    } else {
      e := Returned(i, r, x, s.past.hdrTx, Take(m.respBuf, pc.size));
    }
    var t := At(s, i, SOwn).(past := Logged(s.past, e));
    assert Finish(s, i, e, t);
    longer := ExtendS(c, run, i, t);
  }

  /** A waiter whose number matches takes the response for its own. */
  lemma Receives(c: Config, run: seq<State>, i: nat) returns (longer: seq<State>, e: Entry)
    requires |run| > 0 && IsRun(c, run) && i < |Last(run).senders| && Last(run).senders[i].SWait? && Sized(c, Last(run).mem)
    requires var s := Last(run);
      && s.state == RESP_READY && s.mem.msgSeq == SeqOf(c, s.senders[i].tx)
      && s.mem.msgType != SYSTEM_ERROR && UAbs(s.mem.respSize) <= c.maxResp
    ensures |longer| > 0 && IsRun(c, longer) && longer[0] == run[0] && e in Last(longer).past.log
    ensures var s := Last(run);
      e == Returned(i, s.senders[i].req, s.senders[i].tx, s.past.hdrTx, Take(s.mem.respBuf, s.mem.respSize))
  {
    hide SeqOf, IsRun, Init, ClaimStep, SendStep, WaitStep;
    var r, x, size := Last(run).senders[i].req, Last(run).senders[i].tx, Last(run).mem.respSize;
    longer := Consumes(c, run, i);
    var s := Last(longer);
    var s1 := At(s, i, SReadType(r, x));
    longer := ExtendS(c, longer, i, s1);
    var s2 := At(s1, i, SReadSize(r, x));
    longer := ExtendS(c, longer, i, s2);
    var s3 := At(s2, i, SReadBuf(r, x, size));
    longer := ExtendS(c, longer, i, s3);
    e := Returned(i, r, x, s3.past.hdrTx, Take(s3.mem.respBuf, size));
    var s4 := At(s3, i, SOwn).(past := Logged(s3.past, e));
    assert Finish(s3, i, e, s4);
    longer := ExtendS(c, longer, i, s4);
    assert s4.past.log[|s3.past.log|] == e;
  }

  /** Or the system error. */
  lemma ReceivesError(c: Config, run: seq<State>, i: nat) returns (longer: seq<State>, e: Entry)
    requires |run| > 0 && IsRun(c, run) && i < |Last(run).senders| && Last(run).senders[i].SWait? && Sized(c, Last(run).mem)
    requires var s := Last(run);
      s.state == RESP_READY && s.mem.msgSeq == SeqOf(c, s.senders[i].tx) && s.mem.msgType == SYSTEM_ERROR
    ensures |longer| > 0 && IsRun(c, longer) && longer[0] == run[0] && e in Last(longer).past.log
    ensures e == SystemError(i, Last(run).senders[i].req, Last(run).senders[i].tx, Last(run).past.hdrTx)
    ensures Last(longer).past.answers == Last(run).past.answers
  {
    hide SeqOf, IsRun, Init, ClaimStep, SendStep, WaitStep;
    var r, x := Last(run).senders[i].req, Last(run).senders[i].tx;
    longer := Consumes(c, run, i);
    var s := Last(longer);
    var s1 := At(s, i, SReadType(r, x));
    longer := ExtendS(c, longer, i, s1);
    e := SystemError(i, r, x, s1.past.hdrTx);
    var s2 := At(s1, i, SOwn).(past := Logged(s1.past, e));
    assert Finish(s1, i, e, s2);
    longer := ExtendS(c, longer, i, s2);
    assert s2.past.log[|s1.past.log|] == e;
  }
}
