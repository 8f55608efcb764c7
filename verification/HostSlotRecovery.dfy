/** What becomes of a host slot after its calls: given up and waited for again, stolen while the
    handler still runs, kept for another call, or shut down. */
module HostSlotRecovery {
  import opened SlotTypes
  import opened HostSlot
  import opened HostSlotInvariant
  import opened HostSlotRuns
  import opened HostSlotReplies

  /** The host steals the slot of an abandoned call whose handler still runs. */
  lemma LateHandler(c: Config, late: Request) returns (run: seq<State>)
    requires c.Valid() && WellFormed(c, late) && Ordinary(late.typ)
    ensures |run| > 0 && IsRun(c, run)
    ensures var s := Last(run);
      && Sized(c, s.mem) && s.host == HOwn && s.worker == WRun(0, late, s.mem.respBuf) && s.nextTx == 1
      && s.past.dropped == 0 && !s.bells.guestWaiting
      && |s.past.log| > 0 && s.past.log[|s.past.log| - 1] == TimedOut
  {
    hide IsRun, SeqOf;
    run := Approach(c, late);
    run := Begins(c, run, late);
    run := GivesUp(c, run);
    run := Steals(c, run);
  }

  /** A stolen slot serves on: while the handler of an abandoned call still runs, the host steals the
      slot and publishes another request; the late answer is dropped and the new call gets its own. */
  lemma StolenSlotServesOn(c: Config, late: Request, r: Request, bytes: seq<byte>, size: int32, typ: int)
    returns (run: seq<State>, e: Entry)
    requires c.Valid() && WellFormed(c, late) && Ordinary(late.typ) && WellFormed(c, r) && Ordinary(r.typ)
    requires |bytes| == c.maxResp && typ != SYSTEM_ERROR
    ensures |run| > 0 && IsRun(c, run) && ReturnsAt(run, |run| - 1, e, r, typ, Clamped(bytes, size))
    ensures Last(run).past.dropped == 1 && TimedOut in Last(run).past.log
  {
    hide IsRun, SeqOf, Clamped;
    run := LateHandler(c, late);
    var log := Last(run).past.log;
    run := Fills(c, run, r);
    run := Publishes(c, run);
    run := HostParks(c, run);
    run := Handles(c, run, bytes, 0, NORMAL);
    run := Drops(c, run);
    run := WorkerClaims(c, run);
    run := Begins(c, run, r);
    run := Handles(c, run, bytes, size, typ);
    run, e := Conclude(c, run, false);
    assert Last(run).past.log == log + [e] && log[|log| - 1] == TimedOut;
  }

  /** The host is between setting its wait flag and clearing it. */
  predicate Awaits(h: Host) {
    || h.HArmed? || h.HPrimed? || h.HPublished? || h.HSignal? || h.HSpin? || h.HSlept? || h.HLoop? || h.HBlocked?
    || h.HWake? || h.HFinal? || h.HReady? || h.HParked? || h.HTimedOut? || h.HRearmed?
  }

  ghost predicate Quiet(s: State) { s.activeWait ==> Awaits(s.host) }

  lemma QuietHostStep(c: Config, s: State, t: State)
    requires Sized(c, s.mem)
    requires Quiet(s) && (AcquireStep(c, s, t) || SendStep(c, s, t) || WaitStep(c, s, t) || ReadStep(c, s, t))
    ensures Quiet(t)
  {
    hide SeqOf;
  }

  lemma QuietWorkerStep(c: Config, s: State, t: State)
    requires Sized(c, s.mem) && Quiet(s) && (WatchStep(c, s, t) || HandleStep(c, s, t) || RespondStep(c, s, t))
    ensures Quiet(t)
  {
    hide SeqOf;
  }

  /** The wait flag is up only while the host waits. */
  lemma {:induction false} FlagIsWithdrawn(c: Config, run: seq<State>, k: nat)
    requires IsRun(c, run) && k < |run|
    ensures Quiet(run[k])
  {
    hide AcquireStep, SendStep, WaitStep, ReadStep, WatchStep, HandleStep, RespondStep;
    if k > 0 {
      FlagIsWithdrawn(c, run, k - 1);
      assert Next(c, run[k - 1], run[k]);
      var s, t := run[k - 1], run[k];
      if WatchStep(c, s, t) || HandleStep(c, s, t) || RespondStep(c, s, t) {
        QuietWorkerStep(c, s, t);
      } else {
        QuietHostStep(c, s, t);
      }
    }
  }

  /** No call costs the slot: from every reachable state in which the host is idle or has given its
      call up, it can take the slot, whether it is free or the abandoned request is unread, in the
      handler's hands or answered, unless the worker is between the two halves of publishing. */
  lemma SlotIsTakenBack(c: Config, run: seq<State>) returns (longer: seq<State>)
    requires |run| > 0 && IsRun(c, run) && (Last(run).host.HIdle? || Last(run).host.HDisowned?) && Last(run).state != DONE
    ensures |longer| > 0 && IsRun(c, longer)
    ensures var s := Last(run); Last(longer) == s.(host := HOwn, state := BUSY, gen := s.gen + 1)
  {
    RunInv(c, run, |run| - 1);
    FlagIsWithdrawn(c, run, |run| - 1);
    var s := Last(run);
    assert Sized(c, s.mem) && (Stealable(s.state) || (s.state == FREE && s.host.HIdle?)) by { hide IsRun, SeqOf; }
    hide IsRun, Inv;
    if s.state == FREE { longer := Claims(c, run); } else { longer := Steals(c, run); }
  }

  /** The host may wait again for a call it gave up on, and gets the late answer. */
  lemma LateAnswerIsCollected(c: Config, r: Request, bytes: seq<byte>, size: int32, typ: int) returns (run: seq<State>, e: Entry)
    requires c.Valid() && WellFormed(c, r) && Ordinary(r.typ) && |bytes| == c.maxResp && typ != SYSTEM_ERROR
    ensures |run| > 0 && IsRun(c, run) && ReturnsAt(run, |run| - 1, e, r, typ, Clamped(bytes, size))
    ensures TimedOut in Last(run).past.log
  {
    hide IsRun, SeqOf, Clamped;
    run := Approach(c, r);
    run := Begins(c, run, r);
    run := GivesUp(c, run);
    var log := Last(run).past.log;
    assert log[|log| - 1] == TimedOut;
    run := Rearms(c, run);
    run := HostParks(c, run);
    run := Handles(c, run, bytes, size, typ);
    run, e := Conclude(c, run, false);
    assert Last(run).past.log == log + [e];
  }

  /** A call whose host keeps the slot. */
  lemma KeptSlot(c: Config, r: Request) returns (run: seq<State>)
    requires c.Valid() && WellFormed(c, r) && Ordinary(r.typ)
    ensures |run| > 0 && IsRun(c, run)
    ensures var s := Last(run);
      Sized(c, s.mem) && s.host == HOwn && s.worker == WSpin && s.nextTx == 1 && !s.bells.guestWaiting
  {
    hide IsRun, SeqOf, Clamped;
    run := Approach(c, r);
    run := Begins(c, run, r);
    run := Handles(c, run, Last(run).mem.respBuf, 0, NORMAL);
    var e;
    run, e := Conclude(c, run, true);
  }

  /** A slot kept after a call serves the next one without being claimed again. */
  lemma HeldSlotServesOn(c: Config, first: Request, r: Request, bytes: seq<byte>, size: int32, typ: int)
    returns (run: seq<State>, e: Entry)
    requires c.Valid() && WellFormed(c, first) && Ordinary(first.typ) && WellFormed(c, r) && Ordinary(r.typ)
    requires |bytes| == c.maxResp && typ != SYSTEM_ERROR
    ensures |run| > 0 && IsRun(c, run) && ReturnsAt(run, |run| - 1, e, r, typ, Clamped(bytes, size)) && e.tx == 1
  {
    hide IsRun, SeqOf, Clamped;
    run := KeptSlot(c, first);
    run := Fills(c, run, r);
    run := Publishes(c, run);
    run := HostParks(c, run);
    run := Notices(c, run);
    run := WorkerClaims(c, run);
    run := Begins(c, run, r);
    run := Handles(c, run, bytes, size, typ);
    run, e := Conclude(c, run, false);
  }

  /** A returned size beyond the buffer brings back all of it. */
  lemma OversizedReplyIsTheWholeBuffer(c: Config, r: Request, bytes: seq<byte>, size: int32, typ: int)
    returns (run: seq<State>, e: Entry)
    requires c.Valid() && WellFormed(c, r) && Ordinary(r.typ) && |bytes| == c.maxResp && typ != SYSTEM_ERROR
    requires UAbs(size) > c.maxResp
    ensures |run| > 0 && IsRun(c, run) && ReturnsAt(run, |run| - 1, e, r, typ, bytes)
  {
    hide IsRun, ReturnsAt;
    run, e := RoundTripRun(c, r, bytes, size, typ);
  }

  /** A handler that lost its slot looks at a live buffer: it can see the next request's bytes. */
  lemma LateHandlerSeesTheNext(c: Config, late: Request, r: Request) returns (run: seq<State>)
    requires c.Valid() && WellFormed(c, late) && Ordinary(late.typ) && WellFormed(c, r) && late.size == r.size
    ensures |run| > 0 && IsRun(c, run) && Last(run).worker.WRun?
    ensures Last(run).worker.seen == Request(late.size, late.typ, r.data) && Last(run).worker.tx != Last(run).past.hdrTx
  {
    hide IsRun, SeqOf;
    run := LateHandler(c, late);
    run := Fills(c, run, r);
    var s := Last(run);
    var t := s.(worker := WRun(s.worker.tx, s.worker.seen.(data := Take(s.mem.reqBuf, late.size)), s.worker.view));
    assert HandleStep(c, s, t);
    run := Extend(c, run, t) by { hide AcquireStep, SendStep, WaitStep, ReadStep, WatchStep, HandleStep, RespondStep; }
  }

  // ---- Shutdown ----

  /** The worker read a shutdown request and has nothing left to do but answer it. */
  predicate Stopping(w: Worker) {
    match w
    case WTyped(_, typ) => typ == SHUTDOWN
    case WAnswer(_, ans, _) => ans.Shutdown?
    case WLocked(_, ans, _) => ans.Shutdown?
    case WWroteOne(_, ans, _) => ans.Shutdown?
    case WWroteBoth(_, ans, _) => ans.Shutdown?
    case WPublished(exit) => exit
    case WSignal(exit) => exit
    case WExit => true
    case _ => false
  }

  lemma HostLeavesWorker(c: Config, s: State, t: State)
    requires Sized(c, s.mem)
    requires AcquireStep(c, s, t) || SendStep(c, s, t) || WaitStep(c, s, t) || ReadStep(c, s, t)
    ensures t.worker == s.worker
  {
    hide SeqOf, Put, Clamped;
  }

  lemma StoppingStep(c: Config, s: State, t: State)
    requires Sized(c, s.mem) && Stopping(s.worker) && (s.worker.WWroteBoth? ==> s.state == DONE)
    requires WatchStep(c, s, t) || HandleStep(c, s, t) || RespondStep(c, s, t)
    ensures Stopping(t.worker)
  {
  }

  /** A worker that read a shutdown request serves nothing ever after, whether its answer is taken or
      the slot was stolen from under it. */
  lemma {:induction false} StopsForGood(c: Config, run: seq<State>, j: nat, k: nat)
    requires IsRun(c, run) && j <= k < |run| && Stopping(run[j].worker)
    ensures Stopping(run[k].worker)
  {
    hide AcquireStep, SendStep, WaitStep, ReadStep, WatchStep, HandleStep, RespondStep, Stopping;
    if j < k {
      StopsForGood(c, run, j, k - 1);
      var s, t := run[k - 1], run[k];
      assert Next(c, s, t);
      if WatchStep(c, s, t) || HandleStep(c, s, t) || RespondStep(c, s, t) {
        assert s.worker.WWroteBoth? ==> s.state == DONE by { RunInv(c, run, k - 1); }
        StoppingStep(c, s, t);
      } else {
        HostLeavesWorker(c, s, t);
      }
    }
  }
}
