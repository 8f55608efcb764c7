/** What a host call can come to, in both directions: every request the slot can hold and every
    reply get through, with both sides parked and woken on the way, and nothing else is returned. */
module HostSlotReplies {
  import opened SlotTypes
  import opened HostSlot
  import opened HostSlotInvariant
  import opened HostSlotRuns

  /** Some run returns this type and these bytes to a call that sent r. */
  ghost predicate Returns(c: Config, r: Request, typ: int, bytes: seq<byte>) {
    exists run, k, e :: IsRun(c, run) && ReturnsAt(run, k, e, r, typ, bytes)
  }

  ghost predicate ReturnsAt(run: seq<State>, k: nat, e: Entry, r: Request, typ: int, bytes: seq<byte>) {
    k < |run| && e in run[k].past.log && e.Returned? && e.req == r && e.typ == typ && e.bytes == bytes
  }

  /** What can come back for a request: for an ordinary one whatever the handler makes of it. */
  predicate Possible(c: Config, r: Request, typ: int, bytes: seq<byte>) {
    && WellFormed(c, r) && typ != SYSTEM_ERROR
    && if r.typ == HEARTBEAT_REQ then typ == HEARTBEAT_RESP && bytes == []
       else if r.typ == SHUTDOWN then typ == SHUTDOWN && bytes == []
       else |bytes| <= c.maxResp
  }

  /** The worker is parked, the host publishes and parks too, and the worker wakes and claims. */
  lemma Approach(c: Config, r: Request) returns (run: seq<State>)
    requires c.Valid() && WellFormed(c, r)
    ensures |run| > 0 && IsRun(c, run)
    ensures var s := Last(run);
      && Sized(c, s.mem) && s.state == GUEST_BUSY && s.host == HBlocked(r, 0) && s.worker == WTyped(0, r.typ)
      && s.bells.hostWaiting && RequestInMemory(c, s.mem, r) && s.mem.msgSeq == SeqOf(c, 0) && s.nextTx == 1
      && s.past.hdrTx == 0 && s.past.dropped == 0 && !s.bells.guestWaiting
  {
    run := StartState(c);
    hide IsRun, SeqOf;
    run := WorkerParks(c, run);
    run := Claims(c, run);
    run := Fills(c, run, r);
    run := Publishes(c, run);
    run := HostParks(c, run);
    run := WorkerWakes(c, run);
    run := WorkerClaims(c, run);
  }

  /** The worker answers, the parked host wakes and takes the response. */
  lemma Conclude(c: Config, run: seq<State>, keep: bool) returns (longer: seq<State>, e: Entry)
    requires |run| > 0 && IsRun(c, run) && Sized(c, Last(run).mem) && Last(run).state == GUEST_BUSY
    requires Last(run).host.HBlocked? && Last(run).bells.hostWaiting && Last(run).worker.WAnswer?
    requires Last(run).mem.msgSeq == SeqOf(c, Last(run).host.tx)
    requires Headed(Last(run).mem, Last(run).worker.ans, Last(run).worker.size).msgType != SYSTEM_ERROR
    ensures |longer| > 0 && IsRun(c, longer) && Last(longer).past.log == Last(run).past.log + [e]
    ensures Last(longer).past.dropped == Last(run).past.dropped
    ensures var s, t := Last(run), Last(longer);
      && t.host == (if keep then HOwn else HRelease) && t.worker == (if s.worker.ans.Shutdown? then WExit else WSpin)
      && t.bells.guestWaiting == s.bells.guestWaiting && t.nextTx == s.nextTx && Sized(c, t.mem)
    ensures var s := Last(run); var m := Headed(s.mem, s.worker.ans, s.worker.size);
      e == Returned(s.host.req, s.host.tx, m.msgType, Clamped(m.respBuf, m.respSize))
  {
    hide IsRun, SeqOf, Clamped;
    longer := Responds(c, run);
    longer := HostWakes(c, longer);
    longer, e := Receives(c, longer, keep);
  }

  /** A request of any kind gets its answer through, whatever the handler leaves and returns: a size
      beyond the buffer returns all of it. */
  lemma RoundTripRun(c: Config, r: Request, bytes: seq<byte>, size: int32, typ: int) returns (run: seq<State>, e: Entry)
    requires c.Valid() && WellFormed(c, r) && Ordinary(r.typ) && |bytes| == c.maxResp && typ != SYSTEM_ERROR
    ensures |run| > 0 && IsRun(c, run) && ReturnsAt(run, |run| - 1, e, r, typ, Clamped(bytes, size))
  {
    hide IsRun, SeqOf, Clamped;
    run := Approach(c, r);
    run := Begins(c, run, r);
    run := Handles(c, run, bytes, size, typ);
    run, e := Conclude(c, run, false);
  }

  lemma OwnTypeRun(c: Config, r: Request) returns (run: seq<State>, e: Entry)
    requires c.Valid() && WellFormed(c, r) && !Ordinary(r.typ)
    ensures |run| > 0 && IsRun(c, run)
    ensures ReturnsAt(run, |run| - 1, e, r, if r.typ == SHUTDOWN then SHUTDOWN else HEARTBEAT_RESP, [])
  {
    run := Approach(c, r);
    hide IsRun, SeqOf;
    run := AnswersItself(c, run);
    run, e := Conclude(c, run, false);
  }

  lemma ReturnedIsPossible(c: Config, run: seq<State>, k: nat, e: Entry, r: Request, typ: int, bytes: seq<byte>)
    requires IsRun(c, run) && ReturnsAt(run, k, e, r, typ, bytes)
    ensures Possible(c, r, typ, bytes)
  {
    RunInv(c, run, k);
    hide SeqOf, IsRun, Memory, Roles, NoLostWakeup;
    var p := run[k].past;
    var n :| 0 <= n < |p.log| && p.log[n] == e;
    assert EntryOk(p, p.log[n]);
  }

  /** A call can return this type and these bytes to this request if and only if the request fits,
      and the answer is one its kind allows: any reply that fits for an ordinary one, the fixed
      empty answer for a heartbeat or a shutdown. */
  lemma ReturnsIff(c: Config, r: Request, typ: int, bytes: seq<byte>)
    requires c.Valid()
    ensures Returns(c, r, typ, bytes) <==> Possible(c, r, typ, bytes)
  {
    hide IsRun, ReturnsAt;
    if Returns(c, r, typ, bytes) {
      var run, k, e :| IsRun(c, run) && ReturnsAt(run, k, e, r, typ, bytes);
      ReturnedIsPossible(c, run, k, e, r, typ, bytes);
    }
    if Possible(c, r, typ, bytes) {
      if Ordinary(r.typ) {
        var buf := bytes + seq(c.maxResp - |bytes|, _ => 0);
        assert Clamped(buf, |bytes|) == bytes;
        var run, e := RoundTripRun(c, r, buf, |bytes|, typ);
      } else {
        var run, e := OwnTypeRun(c, r);
      }
    }
  }

  /** Some run answers a call that sent r with a system error. */
  ghost predicate Errs(c: Config, r: Request) {
    exists run: seq<State>, k: nat, x: nat :: IsRun(c, run) && k < |run| && SystemError(r, x) in run[k].past.log
  }

  lemma PanicRun(c: Config, r: Request) returns (run: seq<State>)
    requires c.Valid() && WellFormed(c, r) && Ordinary(r.typ)
    ensures |run| > 0 && IsRun(c, run) && SystemError(r, 0) in Last(run).past.log
  {
    hide IsRun, SeqOf;
    run := Approach(c, r);
    run := Begins(c, run, r);
    run := Panics(c, run);
    run := Responds(c, run);
    run := HostWakes(c, run);
    var e;
    run, e := ReceivesError(c, run);
    assert Last(run).past.log[|Last(run).past.log| - 1] == e;
  }

  lemma ErrorIsPossible(c: Config, run: seq<State>, k: nat, r: Request, x: nat)
    requires IsRun(c, run) && k < |run| && SystemError(r, x) in run[k].past.log
    ensures WellFormed(c, r) && Ordinary(r.typ)
  {
    RunInv(c, run, k);
    hide SeqOf, IsRun, Memory, Roles, NoLostWakeup;
    var p := run[k].past;
    var n :| 0 <= n < |p.log| && p.log[n] == SystemError(r, x);
    assert EntryOk(p, p.log[n]);
  }

  /** A call can end in a system error if and only if its request fits and is an ordinary one. */
  lemma ErrsIff(c: Config, r: Request)
    requires c.Valid()
    ensures Errs(c, r) <==> WellFormed(c, r) && Ordinary(r.typ)
  {
    hide IsRun;
    if Errs(c, r) {
      var run: seq<State>, k: nat, x: nat :| IsRun(c, run) && k < |run| && SystemError(r, x) in run[k].past.log;
      ErrorIsPossible(c, run, k, r, x);
    }
    if WellFormed(c, r) && Ordinary(r.typ) {
      var run := PanicRun(c, r);
      assert SystemError(r, 0) in run[|run| - 1].past.log;
    }
  }
}
