/** A slot is never lost: whatever calls were abandoned on it, once every thread is back at rest the
    next call goes through. */
module GuestCallRecovery {
  import opened SlotTypes
  import opened GuestCall
  import opened GuestCallInvariant
  import opened GuestCallTheorems
  import opened GuestCallRuns
  import opened GuestCallReplies
  import opened GuestCallHandOff

  // ---- The flag comes down with its call ----

  /** From arming the flag to clearing it. */
  predicate Armed(pc: Sender) {
    pc.SArmed? || pc.SWait? || pc.SReady? || pc.SReadyBumped? || pc.SConsumed? || pc.SLost? || pc.STimedOut?
  }

  ghost predicate Raised(s: State) {
    s.activeWait ==> exists i :: 0 <= i < |s.senders| && Armed(s.senders[i])
  }

  /** Only sender i moves, and a raised flag stays with an armed sender. */
  ghost predicate Follows(s: State, i: nat, t: State)
    requires i < |s.senders|
  {
    && |t.senders| == |s.senders| && (forall k :: 0 <= k < |s.senders| && k != i ==> t.senders[k] == s.senders[k])
    && (t.activeWait && (!s.activeWait || Armed(s.senders[i])) ==> Armed(t.senders[i]))
  }

  lemma FollowsOut(c: Config, s: State, i: nat, t: State)
    requires Sized(c, s.mem) && i < |s.senders| && (ClaimStep(c, s, i, t) || SendStep(c, s, i, t))
    ensures Follows(s, i, t)
  {
    hide SeqOf, Put, WellFormed, SizeAccepted;
  }

  lemma FollowsBack(c: Config, s: State, i: nat, t: State)
    requires Sized(c, s.mem) && i < |s.senders| && (WaitStep(c, s, i, t) || ReadStep(c, s, i, t))
    ensures Follows(s, i, t)
  {
    hide SeqOf, Take;
  }

  lemma RaisedBySender(c: Config, s: State, i: nat, t: State)
    requires Sized(c, s.mem) && Raised(s) && i < |s.senders| && SenderStep(c, s, i, t)
    ensures Raised(t)
  {
    hide ClaimStep, SendStep, WaitStep, ReadStep, Armed;
    if ClaimStep(c, s, i, t) || SendStep(c, s, i, t) { FollowsOut(c, s, i, t); } else { FollowsBack(c, s, i, t); }
    if t.activeWait && s.activeWait {
      var w :| 0 <= w < |s.senders| && Armed(s.senders[w]);
      assert Armed(t.senders[w]);
    }
  }

  lemma {:induction false} RaisedRun(c: Config, run: seq<State>, k: nat)
    requires IsRun(c, run) && k < |run|
    ensures Raised(run[k])
  {
    hide SenderStep, ProcessorStep;
    if k > 0 {
      RaisedRun(c, run, k - 1);
      var s, t := run[k - 1], run[k];
      assert Next(c, s, t);
      if i: nat :| i < |s.senders| && SenderStep(c, s, i, t) {
        RaisedBySender(c, s, i, t);
      } else {
        var j: nat :| j < |s.procs| && ProcessorStep(c, s, j, t);
        RaisedByProcessor(c, s, j, t);
      }
    }
  }

  lemma RaisedByProcessor(c: Config, s: State, j: nat, t: State)
    requires Sized(c, s.mem) && Raised(s) && j < |s.procs| && ProcessorStep(c, s, j, t)
    ensures Raised(t)
  {
    assert t.senders == s.senders && t.activeWait == s.activeWait by { hide Raised, SeqOf; }
    hide ProcessorStep;
  }

  // ---- Taking the slot ----

  ghost predicate AtRest(s: State) {
    && (forall i :: 0 <= i < |s.senders| ==> s.senders[i] == SIdle)
    && (forall j :: 0 <= j < |s.procs| ==> s.procs[j] == PIdle)
  }

  /** A request nobody waits for is answered all the same. */
  lemma Clears(c: Config, run: seq<State>) returns (longer: seq<State>)
    requires |run| > 0 && IsRun(c, run) && Sized(c, Last(run).mem) && |Last(run).procs| > 0 && Last(run).procs[0] == PIdle
    requires Last(run).state == REQ_READY && Pending(c, Last(run).mem, Last(run).past)
    ensures |longer| > 0 && IsRun(c, longer) && longer[0] == run[0]
    ensures Rest(c, Last(run), Last(longer), RESP_READY, Last(run).activeWait) && Last(longer).senders == Last(run).senders
  {
    hide IsRun, SeqOf;
    var p := Last(run).past;
    var r := p.requests[p.hdrTx];
    if Fits(c, r) {
      longer := Serves(c, run, 0, r);
      longer := Handles(c, longer, 0, Nothing(c));
    } else {
      longer := Refuses(c, run, 0, r);
    }
    longer := Responds(c, longer, 0);
    assert Last(longer).procs == Last(run).procs;
  }

  /** From any state at rest a sender gets to own the slot: free, or abandoned with its request
      unanswered, or with its response uncollected. */
  lemma Takes(c: Config, run: seq<State>, i: nat) returns (longer: seq<State>)
    requires |run| > 0 && IsRun(c, run) && AtRest(Last(run)) && |Last(run).procs| > 0 && i < |Last(run).senders|
    ensures |longer| > 0 && IsRun(c, longer) && longer[0] == run[0]
    ensures Rest(c, Last(run), Last(longer), GUEST_BUSY, false) && Last(longer).senders == Last(run).senders[i := SOwn]
  {
    var s := Last(run);
    RunInv(c, run, |run| - 1);
    RaisedRun(c, run, |run| - 1);
    assert Sized(c, s.mem) && !s.activeWait && (s.state == FREE || s.state == REQ_READY || s.state == RESP_READY)
      && (s.state == REQ_READY ==> Pending(c, s.mem, s.past)) by { hide IsRun, SeqOf; }
    hide IsRun, SeqOf, Inv, Raised, Pending;
    if s.state == FREE {
      longer := Claims(c, run, i);
    } else {
      longer := run;
      if s.state == REQ_READY { longer := Clears(c, run); }
      longer := WinsSteal(c, longer, i);
      longer := Steals(c, longer, i);
    }
  }

  /** From every reachable state at rest, any sender's call can still be made: any request that fits
      goes out and any reply that fits comes back to it. */
  lemma SlotIsNeverLost(c: Config, run: seq<State>, i: nat, r: Request, y: Reply) returns (longer: seq<State>, e: Entry)
    requires |run| > 0 && IsRun(c, run) && AtRest(Last(run)) && |Last(run).procs| > 0 && i < |Last(run).senders|
    requires Fits(c, r) && r.typ != SYSTEM_ERROR && Sound(c, y)
    ensures |longer| > 0 && IsRun(c, longer) && ReturnsAt(longer, |longer| - 1, e, r, BytesOf(c, y)) && e.sender == i
  {
    assert c.Valid();
    hide IsRun, SeqOf, AtRest;
    longer := Takes(c, run, i) by { hide Rest; }
    assert Last(longer).procs[0] == PIdle;
    var x;
    longer, x := Exchange(c, longer, i, r, y);
    longer, e := Receives(c, longer, i);
  }

  /** An owner may also let the slot go unused, which leaves it free and all else as it was. */
  lemma OwnerLetsGo(c: Config, run: seq<State>, i: nat) returns (longer: seq<State>)
    requires |run| > 0 && IsRun(c, run) && i < |Last(run).senders| && Last(run).senders[i] == SOwn
    ensures |longer| > 0 && IsRun(c, longer)
    ensures var s := Last(run); Last(longer) == At(s, i, SIdle).(state := FREE, owner := Nobody)
  {
    RunInv(c, run, |run| - 1);
    var s := Last(run);
    assert Sized(c, s.mem) && s.state == GUEST_BUSY by { hide IsRun, SeqOf; }
    hide IsRun, Inv, ClaimStep, WaitStep, SeqOf;
    longer := ExtendS(c, run, i, At(s, i, SRelease));
    longer := ExtendS(c, longer, i, At(At(s, i, SRelease), i, SIdle).(state := FREE, owner := Nobody));
    assert Last(longer).senders == s.senders[i := SIdle];
  }
}
