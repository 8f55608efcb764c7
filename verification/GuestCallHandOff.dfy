/** When a published response is certain to reach its waiter. The generation handshake of the
    zombie steal is meant to make a stealer yield to a live transaction; this module settles
    for which numbers of senders and processors it does. */
module GuestCallHandOff {
  import opened SlotTypes
  import opened GuestCall
  import opened GuestCallInvariant
  import opened GuestCallTheorems
  import opened GuestCallRuns

  /** A waiter that saw its response lost it, or found another transaction in its place. */
  ghost predicate Displaced(s: State) {
    || (exists i :: 0 <= i < |s.senders| && s.senders[i].SLost?)
    || (exists k :: 0 <= k < |s.past.log| && s.past.log[k].SeqMismatch?)
  }

  ghost predicate NeverDisplaced(c: Config, n: nat, m: nat) {
    forall run, k :: RunOf(c, n, m, run) && 0 <= k < |run| ==> !Displaced(run[k])
  }

  // ---- One sender, or no processor ----

  /** A lone sender waits only for the header's own transaction. */
  ghost predicate Faithful(s: State, pc: Sender) {
    match pc
    case SWait(_, x) => x == s.past.hdrTx && s.state != FREE && s.state != GUEST_BUSY
    case STimedOut(_, x) => true
    case SReady(_, x) => x == s.past.hdrTx && s.state == RESP_READY
    case SReadyBumped(_, x) => x == s.past.hdrTx && s.state == RESP_READY
    case SConsumed(_, x) => x == s.past.hdrTx
    case SCheck(_, x) => x == s.past.hdrTx
    case SReadType(_, x) => x == s.past.hdrTx
    case SReadSize(_, x) => x == s.past.hdrTx
    case SReadBuf(_, x, _) => x == s.past.hdrTx
    case SLost(_, _) => false
    case _ => true
  }

  ghost predicate Alone(s: State) {
    && |s.senders| <= 1
    && (forall i :: 0 <= i < |s.senders| ==> Faithful(s, s.senders[i]))
    && (forall k :: 0 <= k < |s.past.log| ==> OwnEntry(s.past.log[k]))
  }

  predicate OwnEntry(e: Entry) { !e.SeqMismatch? && (e.Returned? ==> e.carrier == e.tx) }

  lemma AloneClaims(c: Config, s: State, i: nat, t: State)
    requires Inv(c, s) && Alone(s) && i < |s.senders| && ClaimStep(c, s, i, t)
    ensures Alone(t)
  {
    hide Memory, History;
  }

  lemma AloneSends(c: Config, s: State, i: nat, t: State)
    requires Inv(c, s) && Alone(s) && i < |s.senders| && SendStep(c, s, i, t)
    ensures Alone(t)
  {
    hide SeqOf, History, RequestInMemory, Sized;
  }

  lemma AloneWaits(c: Config, s: State, i: nat, t: State)
    requires Inv(c, s) && Alone(s) && i < |s.senders| && WaitStep(c, s, i, t)
    ensures Alone(t)
  {
    hide Memory, History;
  }

  lemma AloneReads(c: Config, s: State, i: nat, t: State)
    requires Inv(c, s) && Alone(s) && i < |s.senders| && ReadStep(c, s, i, t)
    ensures Alone(t)
  {
    hide SeqOf, History, AnswerInMemory, Sized;
  }

  lemma AloneSender(c: Config, s: State, i: nat, t: State)
    requires Inv(c, s) && Alone(s) && i < |s.senders| && SenderStep(c, s, i, t)
    ensures Alone(t)
  {
    assert Sized(c, s.mem);
    hide Inv, Alone, ClaimStep, SendStep, WaitStep, ReadStep;
    if ClaimStep(c, s, i, t) { AloneClaims(c, s, i, t); }
    else if SendStep(c, s, i, t) { AloneSends(c, s, i, t); }
    else if WaitStep(c, s, i, t) { AloneWaits(c, s, i, t); }
    else { AloneReads(c, s, i, t); }
  }

  lemma AloneServes(c: Config, s: State, j: nat, t: State)
    requires Inv(c, s) && Alone(s) && j < |s.procs| && ServeStep(c, s, j, t)
    ensures Alone(t)
  {
    hide SeqOf, Memory, History;
  }

  lemma AloneAnswers(c: Config, s: State, j: nat, t: State)
    requires Inv(c, s) && Alone(s) && j < |s.procs| && AnswerStep(c, s, j, t)
    ensures Alone(t)
  {
    hide SeqOf, Memory, History;
  }

  lemma AloneProcessor(c: Config, s: State, j: nat, t: State)
    requires Inv(c, s) && Alone(s) && j < |s.procs| && ProcessorStep(c, s, j, t)
    ensures Alone(t)
  {
    hide Inv, Alone, ServeStep, AnswerStep;
    if AnswerStep(c, s, j, t) { AloneAnswers(c, s, j, t); } else { AloneServes(c, s, j, t); }
  }

  lemma AloneNext(c: Config, s: State, t: State)
    requires Inv(c, s) && Alone(s) && Next(c, s, t)
    ensures Alone(t)
  {
    hide Inv, Alone, SenderStep, ProcessorStep;
    if i: nat :| i < |s.senders| && SenderStep(c, s, i, t) {
      AloneSender(c, s, i, t);
    } else {
      var j: nat :| j < |s.procs| && ProcessorStep(c, s, j, t);
      AloneProcessor(c, s, j, t);
    }
  }

  lemma {:induction false} AloneRun(c: Config, run: seq<State>, k: nat)
    requires IsRun(c, run) && |run[0].senders| <= 1 && k < |run|
    ensures Alone(run[k])
  {
    hide Inv, Next;
    if k > 0 {
      AloneRun(c, run, k - 1);
      RunInv(c, run, k - 1);
      AloneNext(c, run[k - 1], run[k]);
    }
  }

  /** With no processor nothing is ever answered. */
  ghost predicate Unserved(s: State) {
    && |s.procs| == 0 && s.past.answers == map[]
    && (forall i :: 0 <= i < |s.senders| ==> Unanswered(s.senders[i]))
    && (forall k :: 0 <= k < |s.past.log| ==> !s.past.log[k].SeqMismatch? && !s.past.log[k].Returned?)
  }

  predicate Unanswered(pc: Sender) {
    match pc
    case SReady(_, _) | SReadyBumped(_, _) | SConsumed(_, _) | SLost(_, _) => false
    case SCheck(_, _) | SReadType(_, _) | SReadSize(_, _) | SReadBuf(_, _, _) => false
    case _ => true
  }

  lemma UnservedSends(c: Config, s: State, i: nat, t: State)
    requires Sized(c, s.mem) && s.state != RESP_READY && Unserved(s)
    requires i < |s.senders| && SendStep(c, s, i, t)
    ensures Unserved(t)
  {
    hide SeqOf, Sized, Put, WellFormed, SizeAccepted;
  }

  lemma UnservedStep(c: Config, s: State, i: nat, t: State)
    requires Sized(c, s.mem) && s.state != RESP_READY && Unserved(s)
    requires i < |s.senders| && SenderStep(c, s, i, t)
    ensures Unserved(t)
  {
    if SendStep(c, s, i, t) {
      hide Unserved, SendStep, ClaimStep, WaitStep, ReadStep;
      UnservedSends(c, s, i, t);
    } else {
      hide SendStep, SeqOf, Sized;
      assert ReadStep(c, s, i, t) ==> s.senders[i] == SRelease;
    }
  }

  lemma {:induction false} UnservedRun(c: Config, run: seq<State>, k: nat)
    requires IsRun(c, run) && |run[0].procs| == 0 && k < |run|
    ensures Unserved(run[k])
  {
    if k > 0 {
      UnservedRun(c, run, k - 1);
      var s, t := run[k - 1], run[k];
      assert Next(c, s, t);
      assert s.state != RESP_READY by { RunInv(c, run, k - 1); }
      hide Inv, SenderStep, ProcessorStep;
      var i: nat :| i < |s.senders| && SenderStep(c, s, i, t);
      UnservedStep(c, s, i, t);
    }
  }

  // ---- Two senders and a processor: a run that displaces a waiter ----

  /** Sender 1 publishes, gives up, and its late response becomes a zombie. */
  lemma Abandons(c: Config, run: seq<State>) returns (longer: seq<State>)
    requires |run| > 0 && IsRun(c, run) && |Last(run).senders| >= 2 && Sized(c, Last(run).mem) && Last(run).senders[1] == SOwn
    requires |Last(run).procs| > 0 && Last(run).procs[0] == PIdle && c.Valid()
    ensures |longer| > 0 && IsRun(c, longer) && longer[0] == run[0] && Rest(c, Last(run), Last(longer), RESP_READY, false)
    ensures Last(longer).senders == Last(run).senders[1 := SIdle]
  {
    hide IsRun, Init, SeqOf, ClaimStep, SendStep, ReadStep;
    var x;
    longer, x := Publishes(c, run, 1, EMPTY);
    var s1 := At(Last(longer), 1, STimedOut(EMPTY, x));
    longer := ExtendS(c, longer, 1, s1);
    var s2 := At(s1, 1, SIdle).(activeWait := false, past := Logged(s1.past, Forfeited(1)));
    longer := ExtendS(c, longer, 1, s2);
    longer := Answers(c, longer, EMPTY, x, Nothing(c));
    assert Last(longer).senders == Last(run).senders[1 := SIdle];
  }

  /** A sender that sees the zombie wins the generation CAS, and is about to steal. */
  lemma WinsSteal(c: Config, run: seq<State>, i: nat) returns (longer: seq<State>)
    requires |run| > 0 && IsRun(c, run) && i < |Last(run).senders| && Sized(c, Last(run).mem)
    requires Last(run).senders[i] == SIdle && Last(run).state == RESP_READY && !Last(run).activeWait
    ensures |longer| > 0 && IsRun(c, longer) && longer[0] == run[0] && Rest(c, Last(run), Last(longer), RESP_READY, false)
    ensures Last(longer).senders == Last(run).senders[i := SStealWon]
  {
    hide IsRun, SendStep, WaitStep, ReadStep;
    var s := Last(run);
    var s1 := At(s, i, SSnap(s.gen));
    longer := ExtendS(c, run, i, s1);
    var s2 := At(s1, i, SResp(s.gen));
    longer := ExtendS(c, longer, i, s2);
    var s3 := At(s2, i, SZombie(s.gen));
    longer := ExtendS(c, longer, i, s3);
    var s4 := At(s3, i, SStealWon).(gen := s.gen + 1);
    longer := ExtendS(c, longer, i, s4);
    assert s4.senders == s.senders[i := SStealWon];
  }

  /** It takes whatever response the slot holds by then. */
  lemma Steals(c: Config, run: seq<State>, i: nat) returns (longer: seq<State>)
    requires |run| > 0 && IsRun(c, run) && i < |Last(run).senders| && Sized(c, Last(run).mem)
    requires Last(run).senders[i] == SStealWon && Last(run).state == RESP_READY
    ensures |longer| > 0 && IsRun(c, longer) && longer[0] == run[0] && Rest(c, Last(run), Last(longer), GUEST_BUSY, Last(run).activeWait)
    ensures Last(longer).senders == Last(run).senders[i := SOwn] && Last(longer).mem == Last(run).mem
  {
    hide IsRun, SendStep, WaitStep, ReadStep;
    longer := ExtendS(c, run, i, At(Last(run), i, SOwn).(state := GUEST_BUSY, owner := BySender(i)));
  }

  /** Sender 0 stalls between its two CASes; meanwhile sender 1 recycles the zombie, and its next
      call is answered while it waits. */
  lemma StalledSteal(c: Config, n: nat, m: nat) returns (run: seq<State>, x: nat)
    requires c.Valid() && n >= 2 && m >= 1
    ensures |run| > 0 && RunOf(c, n, m, run) && Sized(c, Last(run).mem) && |Last(run).senders| == n && |Last(run).procs| == m
    ensures Last(run).state == RESP_READY && Last(run).senders[0] == SStealWon && Last(run).senders[1] == SWait(EMPTY, x)
    ensures Carries(c, Last(run), x) && Last(run).procs[0] == PIdle
  {
    run := StartState(c, n, m);
    hide IsRun, SeqOf;
    run := Claims(c, run, 1);
    run := Abandons(c, run);
    run := WinsSteal(c, run, 0);
    run := WinsSteal(c, run, 1);
    run := Steals(c, run, 1);
    run, x := Exchange(c, run, 1, EMPTY, Nothing(c));
  }

  /** The stalled stealer then takes the response from under its live waiter. */
  lemma DisplacingRun(c: Config, n: nat, m: nat) returns (run: seq<State>)
    requires c.Valid() && n >= 2 && m >= 1
    ensures |run| > 0 && RunOf(c, n, m, run) && Displaced(Last(run))
  {
    hide IsRun, SendStep, ReadStep, SeqOf;
    var x;
    run, x := StalledSteal(c, n, m);
    run := ExtendS(c, run, 1, At(Last(run), 1, SReady(EMPTY, x)));
    run := Steals(c, run, 0);
    var s := Last(run);
    run := ExtendS(c, run, 1, At(s, 1, SReadyBumped(EMPTY, x)).(gen := s.gen + 1));
    run := ExtendS(c, run, 1, At(Last(run), 1, SLost(EMPTY, x)));
    assert Last(run).senders[1].SLost?;
  }

  /** The hand-off is certain exactly when one sender at most uses the slot, or nobody answers:
      with two senders a stealer can take a response whose waiter is alive, whether or not
      generation bumps may be skipped. */
  lemma HandOffIsCertainIff(c: Config, n: nat, m: nat)
    requires c.Valid()
    ensures NeverDisplaced(c, n, m) <==> n <= 1 || m == 0
  {
    if n <= 1 {
      forall run, k | RunOf(c, n, m, run) && 0 <= k < |run| ensures !Displaced(run[k]) { AloneRun(c, run, k); }
    } else if m == 0 {
      forall run, k | RunOf(c, n, m, run) && 0 <= k < |run| ensures !Displaced(run[k]) { UnservedRun(c, run, k); }
    } else {
      var run := DisplacingRun(c, n, m);
      assert Displaced(run[|run| - 1]);
    }
  }
}
