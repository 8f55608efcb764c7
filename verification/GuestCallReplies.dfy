/** Every request a slot can hold and every reply that fits get through, and nothing else comes back
    as a reply: what a call can return is settled in both directions, and so is every error. */
module GuestCallReplies {
  import opened SlotTypes
  import opened GuestCall
  import opened GuestCallInvariant
  import opened GuestCallTheorems
  import opened GuestCallRuns

  /** Some run returns these bytes to a call that sent r, as the answer of its own transaction. */
  ghost predicate Returns(c: Config, n: nat, m: nat, r: Request, bytes: seq<byte>) {
    exists run, k, e :: RunOf(c, n, m, run) && ReturnsAt(run, k, e, r, bytes)
  }

  ghost predicate ReturnsAt(run: seq<State>, k: nat, e: Entry, r: Request, bytes: seq<byte>) {
    k < |run| && e in run[k].past.log && e.Returned? && e.req == r && e.bytes == bytes && e.carrier == e.tx
  }

  /** A request goes through the slot and its reply comes back, front or back of the buffer. */
  lemma RoundTripRun(c: Config, n: nat, m: nat, r: Request, y: Reply) returns (run: seq<State>, e: Entry)
    requires c.Valid() && n >= 1 && m >= 1 && Fits(c, r) && r.typ != SYSTEM_ERROR && Sound(c, y)
    ensures |run| > 0 && RunOf(c, n, m, run) && ReturnsAt(run, |run| - 1, e, r, BytesOf(c, y))
  {
    run := StartState(c, n, m);
    hide IsRun, SeqOf;
    run := Claims(c, run, 0);
    var x;
    run, x := Exchange(c, run, 0, r, y);
    run, e := Receives(c, run, 0);
  }

  lemma ReturnedIsPossible(c: Config, run: seq<State>, k: nat, e: Entry, r: Request, bytes: seq<byte>)
    requires IsRun(c, run) && ReturnsAt(run, k, e, r, bytes)
    ensures Fits(c, r) && r.typ != SYSTEM_ERROR && |bytes| <= c.maxResp
  {
    RunInv(c, run, k);
    hide SeqOf, IsRun;
    var p := run[k].past;
    var n :| 0 <= n < |p.log| && p.log[n] == e;
    assert EntryOk(c, p, run[k].mem.nextTx, p.log[n]);
  }

  /** A call's own transaction can return these bytes to this request if and only if the request
      fits the slot and is not itself an error, and the bytes fit the response buffer. */
  lemma ReturnsIff(c: Config, n: nat, m: nat, r: Request, bytes: seq<byte>)
    requires c.Valid() && n >= 1 && m >= 1
    ensures Returns(c, n, m, r, bytes) <==> Fits(c, r) && r.typ != SYSTEM_ERROR && |bytes| <= c.maxResp
  {
    hide IsRun, ReturnsAt;
    if Returns(c, n, m, r, bytes) {
      var run, k, e :| RunOf(c, n, m, run) && ReturnsAt(run, k, e, r, bytes);
      ReturnedIsPossible(c, run, k, e, r, bytes);
    }
    if Fits(c, r) && r.typ != SYSTEM_ERROR && |bytes| <= c.maxResp {
      var y := Reply(bytes + seq(c.maxResp - |bytes|, _ => 0), |bytes|);
      assert BytesOf(c, y) == bytes;
      var run, e := RoundTripRun(c, n, m, r, y);
    }
  }

  /** Some run answers a call that sent r with a system error, for this reason. */
  ghost predicate Errs(c: Config, n: nat, m: nat, r: Request, ans: Answer) {
    exists run, k, e :: RunOf(c, n, m, run) && ErrsAt(run, k, e, r, ans)
  }

  ghost predicate ErrsAt(run: seq<State>, k: nat, e: Entry, r: Request, ans: Answer) {
    && k < |run| && e in run[k].past.log && e.SystemError? && e.req == r && e.carrier == e.tx
    && e.tx in run[k].past.answers && run[k].past.answers[e.tx] == ans
  }

  lemma ErrorRun(c: Config, n: nat, m: nat, r: Request, ans: Answer) returns (run: seq<State>, e: Entry)
    requires c.Valid() && n >= 1 && m >= 1 && Accepted(c, r) && AnswerFor(c, r, ans) && !ans.Handled?
    ensures |run| > 0 && RunOf(c, n, m, run) && ErrsAt(run, |run| - 1, e, r, ans)
  {
    run := StartState(c, n, m);
    hide IsRun, SeqOf;
    run := Claims(c, run, 0);
    var x;
    run, x := Publishes(c, run, 0, r);
    if ans.Refused? {
      run := Refuses(c, run, 0, r);
    } else {
      run := Serves(c, run, 0, r);
      run := Overflows(c, run, 0, ans.returned);
    }
    run := Responds(c, run, 0);
    run, e := ReceivesError(c, run, 0);
  }

  lemma ErrorIsPossible(c: Config, run: seq<State>, k: nat, e: Entry, r: Request, ans: Answer)
    requires IsRun(c, run) && ErrsAt(run, k, e, r, ans)
    ensures Sendable(c, r) && AnswerFor(c, r, ans)
  {
    RunInv(c, run, k);
    hide SeqOf, IsRun;
    var p := run[k].past;
    var n :| 0 <= n < |p.log| && p.log[n] == e;
    assert EntryOk(c, p, run[k].mem.nextTx, p.log[n]);
  }

  /** A request is refused if and only if its size is the one whose negation wraps, the only one the
      senders let through that does not fit; it is answered with an overflow if and only if it fits
      and the returned size does not. */
  lemma ErrsIff(c: Config, n: nat, m: nat, r: Request, returned: int32)
    requires c.Valid() && n >= 1 && m >= 1
    ensures Errs(c, n, m, r, Refused) <==> r.size == -0x8000_0000 && r.data == []
    ensures Errs(c, n, m, r, Overflowed(r, returned)) <==> Fits(c, r) && UAbs(returned) > c.maxResp
  {
    hide IsRun, ErrsAt;
    ErrsWhen(c, n, m, r, Refused);
    ErrsWhen(c, n, m, r, Overflowed(r, returned));
  }

  lemma ErrsWhen(c: Config, n: nat, m: nat, r: Request, ans: Answer)
    requires c.Valid() && n >= 1 && m >= 1 && !ans.Handled?
    ensures Errs(c, n, m, r, ans) <==> Sendable(c, r) && AnswerFor(c, r, ans)
  {
    hide IsRun, ErrsAt, AnswerFor;
    if Errs(c, n, m, r, ans) {
      var run, k, e :| RunOf(c, n, m, run) && ErrsAt(run, k, e, r, ans);
      ErrorIsPossible(c, run, k, e, r, ans);
    }
    if Sendable(c, r) && AnswerFor(c, r, ans) {
      var run, e := ErrorRun(c, n, m, r, ans);
    }
  }
}
