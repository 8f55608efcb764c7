/** Runs of a host slot, built step by step: the host claims or steals the slot and publishes any
    request that fits, both sides park and are woken by their events, the worker answers, and the
    host takes the response. */
module HostSlotRuns {
  import opened SlotTypes
  import opened HostSlot
  import opened HostSlotInvariant

  function Last(run: seq<State>): State
    requires |run| > 0
  {
    run[|run| - 1]
  }

  lemma {:induction false} Extend(c: Config, run: seq<State>, t: State) returns (longer: seq<State>)
    requires |run| > 0 && IsRun(c, run) && Next(c, Last(run), t)
    ensures |longer| > 0 && IsRun(c, longer) && Last(longer) == t
  {
    hide Next, Init;
    longer := run + [t];
    assert forall k :: 0 <= k < |longer| - 1 ==> longer[k] == run[k] && Next(c, longer[k], longer[k + 1]);
  }

  lemma StartState(c: Config) returns (run: seq<State>)
    requires c.Valid()
    ensures |run| > 0 && IsRun(c, run) && Init(c, Last(run))
  {
    var mem := Mem(0, 0, 0, 0, seq(c.maxReq, _ => 0), seq(c.maxResp, _ => 0));
    run := [State(FREE, 0, false, mem, Bells(false, false, false, false), 0, HIdle, WTop, Past(-1, map[], map[], [], 0, 0))];
  }

  /** The worker finds nothing to do and parks. */
  lemma WorkerParks(c: Config, run: seq<State>) returns (longer: seq<State>)
    requires |run| > 0 && IsRun(c, run) && Sized(c, Last(run).mem) && Last(run).worker == WTop && Last(run).state != REQ_READY
    ensures |longer| > 0 && IsRun(c, longer)
    ensures var s := Last(run); Last(longer) == s.(worker := WBlocked, bells := s.bells.(guestWaiting := true))
  {
    hide IsRun, SeqOf, AcquireStep, SendStep, WaitStep, ReadStep, HandleStep, RespondStep;
    var s := Last(run);
    var s1 := s.(worker := WSpin, bells := s.bells.(guestWaiting := false));
    longer := Extend(c, run, s1);
    var s2 := s1.(worker := WSlept, bells := s1.bells.(guestWaiting := true));
    longer := Extend(c, longer, s2);
    longer := Extend(c, longer, s2.(worker := WBlocked));
  }

  /** The host claims the free slot. */
  lemma Claims(c: Config, run: seq<State>) returns (longer: seq<State>)
    requires |run| > 0 && IsRun(c, run) && Sized(c, Last(run).mem) && Last(run).host == HIdle && Last(run).state == FREE
    ensures |longer| > 0 && IsRun(c, longer)
    ensures var s := Last(run); Last(longer) == s.(host := HOwn, state := BUSY, gen := s.gen + 1)
  {
    hide IsRun, SeqOf, SendStep, WaitStep, ReadStep, WatchStep, HandleStep, RespondStep;
    var s := Last(run);
    longer := Extend(c, run, s.(host := HGen(s.gen)));
    longer := Extend(c, longer, s.(host := HFree));
    longer := Extend(c, longer, s.(host := HFreeBumped, gen := s.gen + 1));
    longer := Extend(c, longer, s.(host := HOwn, state := BUSY, gen := s.gen + 1));
  }

  /** The header and request buffer of transaction x. */
  ghost predicate Filled(c: Config, s: State, t: State, r: Request) {
    && RequestInMemory(c, t.mem, r) && Sized(c, t.mem) && t.mem.msgSeq == SeqOf(c, s.nextTx)
    && t.nextTx == s.nextTx + 1 && t.past.hdrTx == s.nextTx && t.past.log == s.past.log && t.past.dropped == s.past.dropped
  }

  /** An owner writes its request, numbers it and arms its wait. */
  lemma Fills(c: Config, run: seq<State>, r: Request) returns (longer: seq<State>)
    requires |run| > 0 && IsRun(c, run) && Sized(c, Last(run).mem) && Last(run).host == HOwn && WellFormed(c, r)
    ensures |longer| > 0 && IsRun(c, longer)
    ensures var s, t := Last(run), Last(longer);
      && t == s.(host := HPrimed(r, s.nextTx), mem := t.mem, nextTx := t.nextTx, past := t.past, activeWait := true,
                 bells := s.bells.(hostWaiting := false))
      && Filled(c, s, t, r)
  {
    hide IsRun, SeqOf, AcquireStep, WaitStep, ReadStep, WatchStep, HandleStep, RespondStep;
    var s := Last(run);
    var x := s.nextTx;
    var s1 := s.(host := HWroteBuf(r), mem := s.mem.(reqBuf := Put(s.mem.reqBuf, r.size, r.data)));
    assert SendStep(c, s, s1);
    longer := Extend(c, run, s1);
    var s2 := s1.(host := HWroteSize(r), mem := s1.mem.(reqSize := r.size));
    longer := Extend(c, longer, s2);
    var s3 := s2.(host := HWroteType(r), mem := s2.mem.(msgType := r.typ));
    longer := Extend(c, longer, s3);
    var s4 := s3.(host := HWroteSeq(r, x), mem := s3.mem.(msgSeq := SeqOf(c, x)), nextTx := x + 1, past := s3.past.(hdrTx := x));
    longer := Extend(c, longer, s4);
    var s5 := s4.(host := HArmed(r, x), activeWait := true);
    longer := Extend(c, longer, s5);
    longer := Extend(c, longer, s5.(host := HPrimed(r, x), bells := s5.bells.(hostWaiting := false)));
  }

  /** It publishes, and rings for a worker that is parked. */
  lemma Publishes(c: Config, run: seq<State>) returns (longer: seq<State>)
    requires |run| > 0 && IsRun(c, run) && Sized(c, Last(run).mem) && Last(run).host.HPrimed?
    ensures |longer| > 0 && IsRun(c, longer)
    ensures var s, t := Last(run), Last(longer);
      && t == s.(host := HSpin(s.host.req, s.host.tx), state := REQ_READY, past := t.past,
                 bells := s.bells.(reqEvent := s.bells.reqEvent || s.bells.guestWaiting))
      && t.past == s.past.(requests := s.past.requests[s.host.tx := s.host.req])
  {
    hide IsRun, SeqOf, AcquireStep, WaitStep, ReadStep, WatchStep, HandleStep, RespondStep;
    var s := Last(run);
    var r, x := s.host.req, s.host.tx;
    var s1 := s.(host := HPublished(r, x), state := REQ_READY, past := s.past.(requests := s.past.requests[x := r]));
    longer := Extend(c, run, s1);
    if s.bells.guestWaiting {
      longer := Extend(c, longer, s1.(host := HSignal(r, x)));
      longer := Extend(c, longer, s1.(host := HSpin(r, x), bells := s1.bells.(reqEvent := true)));
    } else {
      longer := Extend(c, longer, s1.(host := HSpin(r, x)));
    }
  }

  /** The host waits, finds nothing and parks. */
  lemma HostParks(c: Config, run: seq<State>) returns (longer: seq<State>)
    requires |run| > 0 && IsRun(c, run) && Sized(c, Last(run).mem) && Last(run).host.HSpin? && Last(run).state != RESP_READY
    ensures |longer| > 0 && IsRun(c, longer)
    ensures var s := Last(run); Last(longer) == s.(host := HBlocked(s.host.req, s.host.tx), bells := s.bells.(hostWaiting := true))
  {
    hide IsRun, SeqOf, AcquireStep, SendStep, ReadStep, WatchStep, HandleStep, RespondStep;
    var s := Last(run);
    var r, x := s.host.req, s.host.tx;
    var s1 := s.(host := HSlept(r, x), bells := s.bells.(hostWaiting := true));
    longer := Extend(c, run, s1);
    longer := Extend(c, longer, s1.(host := HLoop(r, x)));
    longer := Extend(c, longer, s1.(host := HBlocked(r, x)));
  }

  /** The parked worker takes its event and wakes. */
  lemma WorkerWakes(c: Config, run: seq<State>) returns (longer: seq<State>)
    requires |run| > 0 && IsRun(c, run) && Sized(c, Last(run).mem) && Last(run).state == REQ_READY
    requires Last(run).worker == WBlocked && Last(run).bells.reqEvent
    ensures |longer| > 0 && IsRun(c, longer)
    ensures var s := Last(run); Last(longer) == s.(worker := WReady, bells := s.bells.(reqEvent := false, guestWaiting := false))
  {
    hide IsRun, SeqOf, AcquireStep, SendStep, WaitStep, ReadStep, HandleStep, RespondStep;
    var s := Last(run);
    var s1 := s.(worker := WWoken, bells := s.bells.(reqEvent := false));
    longer := Extend(c, run, s1);
    var s2 := s1.(worker := WFinal, bells := s1.bells.(guestWaiting := false));
    longer := Extend(c, longer, s2);
    longer := Extend(c, longer, s2.(worker := WReady));
  }

  /** It claims the request and reads its type. */
  lemma WorkerClaims(c: Config, run: seq<State>) returns (longer: seq<State>)
    requires |run| > 0 && IsRun(c, run) && Sized(c, Last(run).mem) && Last(run).state == REQ_READY && Last(run).worker == WReady
    ensures |longer| > 0 && IsRun(c, longer)
    ensures var s := Last(run); Last(longer) == s.(worker := WTyped(s.past.hdrTx, s.mem.msgType), state := GUEST_BUSY, gen := s.gen + 1)
  {
    hide IsRun, SeqOf, AcquireStep, SendStep, WaitStep, ReadStep, RespondStep;
    var s := Last(run);
    var s1 := s.(worker := WBumped, gen := s.gen + 1);
    longer := Extend(c, run, s1);
    var s2 := s1.(worker := WClaimed(s.past.hdrTx), state := GUEST_BUSY);
    longer := Extend(c, longer, s2);
    longer := Extend(c, longer, s2.(worker := WTyped(s.past.hdrTx, s.mem.msgType)));
  }

  /** It starts the handler on an ordinary request. */
  lemma Begins(c: Config, run: seq<State>, r: Request) returns (longer: seq<State>)
    requires |run| > 0 && IsRun(c, run) && Sized(c, Last(run).mem) && WellFormed(c, r) && Ordinary(r.typ)
    requires RequestInMemory(c, Last(run).mem, r) && Last(run).worker.WTyped? && Last(run).worker.typ == r.typ
    ensures |longer| > 0 && IsRun(c, longer)
    ensures var s := Last(run); Last(longer) == s.(worker := WRun(s.worker.tx, r, s.mem.respBuf))
  {
    hide IsRun, SeqOf, AcquireStep, SendStep, WaitStep, ReadStep, WatchStep, RespondStep;
    var s := Last(run);
    var s1 := s.(worker := WSized(s.worker.tx, r.typ, r.size));
    longer := Extend(c, run, s1);
    longer := Extend(c, longer, s.(worker := WRun(s.worker.tx, r, s.mem.respBuf)));
  }

  /** The handler leaves some bytes and returns a size and a type. */
  lemma Handles(c: Config, run: seq<State>, bytes: seq<byte>, size: int32, typ: int) returns (longer: seq<State>)
    requires |run| > 0 && IsRun(c, run) && Sized(c, Last(run).mem) && Last(run).worker.WRun? && |bytes| == c.maxResp
    ensures |longer| > 0 && IsRun(c, longer)
    ensures var s := Last(run);
      Last(longer) == s.(worker := WAnswer(s.worker.tx, Handled(s.worker.seen, typ, Clamped(bytes, size)), size),
                         mem := s.mem.(respBuf := bytes))
  {
    hide IsRun, SeqOf, AcquireStep, SendStep, WaitStep, ReadStep, WatchStep, RespondStep, Clamped;
    var s := Last(run);
    var x, seen := s.worker.tx, s.worker.seen;
    var s1 := s.(worker := WRun(x, seen, bytes), mem := s.mem.(respBuf := bytes));
    assert HandleStep(c, s, s1);
    longer := Extend(c, run, s1);
    var s2 := s1.(worker := WAnswer(x, Handled(seen, typ, Clamped(bytes, size)), size));
    assert HandleStep(c, s1, s2);
    longer := Extend(c, longer, s2);
  }

  /** A heartbeat or a shutdown never reaches the handler. */
  lemma AnswersItself(c: Config, run: seq<State>) returns (longer: seq<State>)
    requires |run| > 0 && IsRun(c, run) && Sized(c, Last(run).mem) && Last(run).worker.WTyped? && !Ordinary(Last(run).worker.typ)
    ensures |longer| > 0 && IsRun(c, longer)
    ensures var s := Last(run);
      Last(longer) == s.(worker := WAnswer(s.worker.tx, if s.worker.typ == SHUTDOWN then Shutdown else Heartbeat, 0))
  {
    hide IsRun, SeqOf, AcquireStep, SendStep, WaitStep, ReadStep, WatchStep, RespondStep;
    var s := Last(run);
    longer := Extend(c, run, s.(worker := WAnswer(s.worker.tx, if s.worker.typ == SHUTDOWN then Shutdown else Heartbeat, 0)));
  }

  /** Or it panics, and the worker recovers while it still owns the slot. */
  lemma Panics(c: Config, run: seq<State>) returns (longer: seq<State>)
    requires |run| > 0 && IsRun(c, run) && Sized(c, Last(run).mem) && Last(run).worker.WRun? && Last(run).state == GUEST_BUSY
    ensures |longer| > 0 && IsRun(c, longer)
    ensures var s := Last(run); Last(longer) == s.(worker := WAnswer(s.worker.tx, Panicked, 0))
  {
    hide IsRun, SeqOf, AcquireStep, SendStep, WaitStep, ReadStep, WatchStep, RespondStep;
    var s := Last(run);
    longer := Extend(c, run, s.(worker := WPanicked(s.worker.tx)));
    longer := Extend(c, longer, s.(worker := WAnswer(s.worker.tx, Panicked, 0)));
  }

  /** The header once an answer is written under the lock. */
  function Headed(m: Mem, ans: Answer, size: int32): Mem {
    match ans
    case Handled(_, typ, _) => m.(respSize := size, msgType := typ)
    case Heartbeat => m.(msgType := HEARTBEAT_RESP, respSize := 0)
    case Shutdown => m.(respSize := size)
    case Refused => m.(respSize := size, msgType := SYSTEM_ERROR)
    case Panicked => m.(msgType := SYSTEM_ERROR, respSize := 0)
  }

  /** The worker publishes, and rings for a host that is parked. */
  lemma Responds(c: Config, run: seq<State>) returns (longer: seq<State>)
    requires |run| > 0 && IsRun(c, run) && Sized(c, Last(run).mem) && Last(run).worker.WAnswer? && Last(run).state == GUEST_BUSY
    ensures |longer| > 0 && IsRun(c, longer)
    ensures var s, t := Last(run), Last(longer); var ans := s.worker.ans;
      && t == s.(worker := if ans.Shutdown? then WExit else WSpin, state := RESP_READY, mem := Headed(s.mem, ans, s.worker.size),
                 past := t.past, bells := s.bells.(respEvent := s.bells.respEvent || s.bells.hostWaiting))
      && t.past == s.past.(answers := s.past.answers[s.past.hdrTx := ans])
  {
    hide IsRun, SeqOf, AcquireStep, SendStep, WaitStep, ReadStep, WatchStep, HandleStep;
    var s := Last(run);
    var x, ans, size := s.worker.tx, s.worker.ans, s.worker.size;
    longer := Extend(c, run, s.(worker := WLocked(x, ans, size), state := DONE));
    var s1 := Last(longer);
    var m := if ans.Heartbeat? then s.mem.(msgType := HEARTBEAT_RESP)
      else if ans.Panicked? then s.mem.(msgType := SYSTEM_ERROR) else s.mem.(respSize := size);
    longer := Extend(c, longer, s1.(worker := WWroteOne(x, ans, size), mem := m));
    var s2 := s1.(worker := WWroteBoth(x, ans, size), mem := Headed(s.mem, ans, size));
    longer := Extend(c, longer, s2);
    longer := Rings(c, longer);
  }

  lemma Rings(c: Config, run: seq<State>) returns (longer: seq<State>)
    requires |run| > 0 && IsRun(c, run) && Sized(c, Last(run).mem) && Last(run).worker.WWroteBoth? && Last(run).state == DONE
    ensures |longer| > 0 && IsRun(c, longer)
    ensures var s, t := Last(run), Last(longer); var ans := s.worker.ans;
      && t == s.(worker := if ans.Shutdown? then WExit else WSpin, state := RESP_READY, past := t.past,
                 bells := s.bells.(respEvent := s.bells.respEvent || s.bells.hostWaiting))
      && t.past == s.past.(answers := s.past.answers[s.past.hdrTx := ans])
  {
    hide IsRun, SeqOf, AcquireStep, SendStep, WaitStep, ReadStep, WatchStep, HandleStep;
    var s := Last(run);
    var ans := s.worker.ans;
    var exit := ans.Shutdown?;
    var s1 := s.(worker := WPublished(exit), state := RESP_READY, past := s.past.(answers := s.past.answers[s.past.hdrTx := ans]));
    longer := Extend(c, run, s1);
    if s.bells.hostWaiting {
      longer := Extend(c, longer, s1.(worker := WSignal(exit)));
      longer := Extend(c, longer, s1.(worker := if exit then WExit else WSpin, bells := s1.bells.(respEvent := true)));
    } else {
      longer := Extend(c, longer, s1.(worker := if exit then WExit else WSpin));
    }
  }

  /** The parked host takes its event and wakes with the response. */
  lemma HostWakes(c: Config, run: seq<State>) returns (longer: seq<State>)
    requires |run| > 0 && IsRun(c, run) && Sized(c, Last(run).mem) && Last(run).state == RESP_READY
    requires Last(run).host.HBlocked? && Last(run).bells.respEvent
    ensures |longer| > 0 && IsRun(c, longer)
    ensures var s := Last(run);
      Last(longer) == s.(host := HReady(s.host.req, s.host.tx), bells := s.bells.(respEvent := false, hostWaiting := false))
  {
    hide IsRun, SeqOf, AcquireStep, SendStep, ReadStep, WatchStep, HandleStep, RespondStep;
    var s := Last(run);
    var r, x := s.host.req, s.host.tx;
    var s1 := s.(host := HLoop(r, x), bells := s.bells.(respEvent := false));
    longer := Extend(c, run, s1);
    longer := Extend(c, longer, s1.(host := HWake(r, x)));
    var s2 := s1.(host := HFinal(r, x), bells := s1.bells.(hostWaiting := false));
    longer := Extend(c, longer, s2);
    longer := Extend(c, longer, s2.(host := HReady(r, x)));
  }

  /** It takes the response and logs it, and lets the slot go or keeps it. */
  lemma Receives(c: Config, run: seq<State>, keep: bool) returns (longer: seq<State>, e: Entry)
    requires |run| > 0 && IsRun(c, run) && Sized(c, Last(run).mem) && Last(run).host.HReady?
    requires Last(run).mem.msgSeq == SeqOf(c, Last(run).host.tx) && Last(run).mem.msgType != SYSTEM_ERROR
    ensures |longer| > 0 && IsRun(c, longer)
    ensures Last(longer) ==
      Last(run).(host := if keep then HOwn else HRelease, state := BUSY, activeWait := false, past := Logged(Last(run).past, e))
    ensures var s := Last(run); e == Returned(s.host.req, s.host.tx, s.mem.msgType, Clamped(s.mem.respBuf, s.mem.respSize))
  {
    hide IsRun, SeqOf, AcquireStep, SendStep, WatchStep, HandleStep, RespondStep, Clamped;
    var s := Last(run);
    var r, x, m := s.host.req, s.host.tx, s.mem;
    var s1 := s.(host := HParked(r, x), state := BUSY);
    longer := Extend(c, run, s1);
    var s2 := s1.(host := HCheck(r, x), activeWait := false);
    longer := Extend(c, longer, s2);
    longer := Extend(c, longer, s2.(host := HReadType(r, x)));
    longer := Extend(c, longer, s2.(host := HReadSize(r, x, m.msgType)));
    longer := Extend(c, longer, s2.(host := HReadBuf(r, x, m.msgType, m.respSize)));
    e := Returned(r, x, m.msgType, Clamped(m.respBuf, m.respSize));
    longer := Extend(c, longer, s2.(host := if keep then HOwn else HRelease, past := Logged(s2.past, e)));
  }

  /** Or the system error. */
  lemma ReceivesError(c: Config, run: seq<State>) returns (longer: seq<State>, e: Entry)
    requires |run| > 0 && IsRun(c, run) && Sized(c, Last(run).mem) && Last(run).host.HReady?
    requires Last(run).mem.msgSeq == SeqOf(c, Last(run).host.tx) && Last(run).mem.msgType == SYSTEM_ERROR
    ensures |longer| > 0 && IsRun(c, longer) && Last(longer).past == Logged(Last(run).past, e)
    ensures e == SystemError(Last(run).host.req, Last(run).host.tx)
  {
    hide IsRun, SeqOf, AcquireStep, SendStep, WatchStep, HandleStep, RespondStep;
    var s := Last(run);
    var r, x := s.host.req, s.host.tx;
    longer := Extend(c, run, s.(host := HParked(r, x), state := BUSY));
    var s1 := s.(host := HCheck(r, x), state := BUSY, activeWait := false);
    longer := Extend(c, longer, s1);
    longer := Extend(c, longer, s1.(host := HReadType(r, x)));
    e := SystemError(r, x);
    longer := Extend(c, longer, s1.(host := HRelease, past := Logged(s1.past, e)));
  }

  /** The host gives up on a transaction whose handler still runs. */
  lemma GivesUp(c: Config, run: seq<State>) returns (longer: seq<State>)
    requires |run| > 0 && IsRun(c, run) && Sized(c, Last(run).mem) && Last(run).host.HBlocked? && Last(run).state == GUEST_BUSY
    ensures |longer| > 0 && IsRun(c, longer)
    ensures var s := Last(run); Last(longer) == s.(host := HDisowned(s.host.req, s.host.tx), activeWait := false,
      past := Logged(s.past, TimedOut), bells := s.bells.(hostWaiting := false))
  {
    hide IsRun, SeqOf, AcquireStep, SendStep, ReadStep, WatchStep, HandleStep, RespondStep;
    var s := Last(run);
    var r, x := s.host.req, s.host.tx;
    longer := Extend(c, run, s.(host := HLoop(r, x)));
    longer := Extend(c, longer, s.(host := HWake(r, x)));
    var s1 := s.(host := HFinal(r, x), bells := s.bells.(hostWaiting := false));
    longer := Extend(c, longer, s1);
    longer := Extend(c, longer, s1.(host := HTimedOut(r, x)));
    longer := Extend(c, longer, s1.(host := HDisowned(r, x), activeWait := false, past := Logged(s.past, TimedOut)));
  }

  /** It steals the slot, whatever the worker has done with it. */
  lemma Steals(c: Config, run: seq<State>) returns (longer: seq<State>)
    requires |run| > 0 && IsRun(c, run) && Sized(c, Last(run).mem) && (Last(run).host.HIdle? || Last(run).host.HDisowned?)
    requires Stealable(Last(run).state) && !Last(run).activeWait
    ensures |longer| > 0 && IsRun(c, longer)
    ensures var s := Last(run); Last(longer) == s.(host := HOwn, state := BUSY, gen := s.gen + 1)
  {
    hide IsRun, SeqOf, SendStep, WaitStep, ReadStep, WatchStep, HandleStep, RespondStep;
    var s := Last(run);
    longer := Extend(c, run, s.(host := HGen(s.gen)));
    longer := Extend(c, longer, s.(host := HZombie(s.gen, s.state)));
    longer := Extend(c, longer, s.(host := HStealWon(s.state), gen := s.gen + 1));
    longer := Extend(c, longer, s.(host := HOwn, gen := s.gen + 1, state := BUSY));
  }

  /** It waits again for the transaction it gave up on. */
  lemma Rearms(c: Config, run: seq<State>) returns (longer: seq<State>)
    requires |run| > 0 && IsRun(c, run) && Sized(c, Last(run).mem) && Last(run).host.HDisowned?
    ensures |longer| > 0 && IsRun(c, longer)
    ensures var s := Last(run);
      Last(longer) == s.(host := HSpin(s.host.req, s.host.tx), activeWait := true, bells := s.bells.(hostWaiting := false))
  {
    hide IsRun, SeqOf, SendStep, ReadStep, WatchStep, HandleStep, RespondStep;
    var s := Last(run);
    var r, x := s.host.req, s.host.tx;
    var s1 := s.(host := HRearmed(r, x), activeWait := true);
    longer := Extend(c, run, s1);
    longer := Extend(c, longer, s1.(host := HSpin(r, x), bells := s1.bells.(hostWaiting := false)));
  }

  /** A spinning worker notices a request. */
  lemma Notices(c: Config, run: seq<State>) returns (longer: seq<State>)
    requires |run| > 0 && IsRun(c, run) && Sized(c, Last(run).mem) && Last(run).worker == WSpin && Last(run).state == REQ_READY
    ensures |longer| > 0 && IsRun(c, longer) && Last(longer) == Last(run).(worker := WReady)
  {
    hide IsRun, SeqOf, AcquireStep, SendStep, WaitStep, ReadStep, HandleStep, RespondStep;
    longer := Extend(c, run, Last(run).(worker := WReady));
  }

  /** The late handler's answer finds the slot gone and is dropped. */
  lemma Drops(c: Config, run: seq<State>) returns (longer: seq<State>)
    requires |run| > 0 && IsRun(c, run) && Sized(c, Last(run).mem) && Last(run).worker.WAnswer? && !Last(run).worker.ans.Shutdown?
    requires Last(run).state == REQ_READY
    ensures |longer| > 0 && IsRun(c, longer)
    ensures var s := Last(run); Last(longer) == s.(worker := WReady, past := s.past.(dropped := s.past.dropped + 1))
  {
    hide IsRun, SeqOf, AcquireStep, SendStep, WaitStep, ReadStep, HandleStep;
    var s := Last(run);
    longer := Extend(c, run, s.(worker := WSpin, past := s.past.(dropped := s.past.dropped + 1)));
    longer := Notices(c, longer);
  }
}
