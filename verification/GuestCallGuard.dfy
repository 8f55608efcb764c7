/** What the active-wait flag and the generation handshake are for. A call that arms the flag while
    every other sender has yet to look at it, or is about to steal on a stale generation, cannot be
    displaced: its response waits for it, in every continuation. */
module GuestCallGuard {
  import opened SlotTypes
  import opened GuestCall
  import opened GuestCallInvariant
  import opened GuestCallTheorems

  /** A sender that holds nothing and has not passed the flag, or whose snapshot is out of date. */
  predicate Bystander(pc: Sender, gen: nat) {
    pc.SIdle? || pc.SSnap? || pc.SFree? || pc.SFreeBumped? || pc.SResp? || (pc.SZombie? && pc.gen < gen)
  }

  /** From arming the wait to consuming the response. */
  predicate Waiting(pc: Sender) { pc.SArmed? || pc.SWait? || pc.SReady? || pc.SReadyBumped? }

  ghost predicate OthersStandBy(s: State, i: nat) {
    forall k :: 0 <= k < |s.senders| && k != i ==> Bystander(s.senders[k], s.gen)
  }

  /** Sender i waits for the header's own transaction, and the slot is not up for claiming. */
  ghost predicate Guarded(s: State, i: nat) {
    && i < |s.senders| && OthersStandBy(s, i) && s.activeWait && s.state != FREE
    && Waiting(s.senders[i]) && s.senders[i].tx == s.past.hdrTx
    && (s.senders[i].SReady? || s.senders[i].SReadyBumped? ==> s.state == RESP_READY)
    && (!s.senders[i].SArmed? ==> s.state != GUEST_BUSY)
  }

  /** Sender i gave up, or took the response of its own transaction. */
  ghost predicate Settled(s: State, i: nat, x: nat) {
    && i < |s.senders| && (s.senders[i].STimedOut? || s.senders[i].SConsumed?)
    && s.senders[i].tx == x && (s.senders[i].SConsumed? ==> x == s.past.hdrTx)
  }

  lemma ArmedIsGuarded(c: Config, s: State, i: nat)
    requires Inv(c, s) && i < |s.senders| && s.senders[i].SArmed? && s.activeWait && OthersStandBy(s, i)
    ensures Guarded(s, i)
  {
    hide SeqOf, History;
  }

  lemma OwnStep(c: Config, s: State, i: nat, t: State)
    requires Inv(c, s) && Guarded(s, i) && SenderStep(c, s, i, t)
    ensures (Guarded(t, i) && t.senders[i].tx == s.senders[i].tx) || Settled(t, i, s.senders[i].tx)
  {
    hide SeqOf, Memory, History;
  }

  lemma OtherStep(c: Config, s: State, i: nat, k: nat, t: State)
    requires Inv(c, s) && Guarded(s, i) && k < |s.senders| && k != i && SenderStep(c, s, k, t)
    ensures Guarded(t, i) && t.senders[i] == s.senders[i]
  {
    hide SeqOf, Memory, History;
  }

  lemma ServingStep(c: Config, s: State, i: nat, j: nat, t: State)
    requires Inv(c, s) && Guarded(s, i) && j < |s.procs| && ServeStep(c, s, j, t)
    ensures Guarded(t, i) && t.senders[i] == s.senders[i]
  {
    hide SeqOf, Memory, History;
  }

  lemma AnsweringStep(c: Config, s: State, i: nat, j: nat, t: State)
    requires Inv(c, s) && Guarded(s, i) && j < |s.procs| && AnswerStep(c, s, j, t)
    ensures Guarded(t, i) && t.senders[i] == s.senders[i]
  {
    hide SeqOf, Memory, History;
  }

  lemma GuardStep(c: Config, s: State, i: nat, t: State)
    requires Inv(c, s) && Guarded(s, i) && Next(c, s, t)
    ensures (Guarded(t, i) && t.senders[i].tx == s.senders[i].tx) || Settled(t, i, s.senders[i].tx)
  {
    hide Inv, ClaimStep, SendStep, WaitStep, ReadStep, ServeStep, AnswerStep;
    if k: nat :| k < |s.senders| && SenderStep(c, s, k, t) {
      if k == i { OwnStep(c, s, i, t); } else { OtherStep(c, s, i, k, t); }
    } else {
      var j: nat :| j < |s.procs| && ProcessorStep(c, s, j, t);
      if AnswerStep(c, s, j, t) { AnsweringStep(c, s, i, j, t); } else { ServingStep(c, s, i, j, t); }
    }
  }

  /** A call that armed its wait while every other sender stood by stays guarded in every continuation
      until it gives up or takes the response of its own transaction: it is never displaced. */
  lemma {:induction false} GuardedCallIsNeverDisplaced(c: Config, run: seq<State>, j: nat, k: nat, i: nat)
    requires IsRun(c, run) && j <= k < |run| && i < |run[j].senders| && run[j].senders[i].SArmed? && run[j].activeWait
    requires OthersStandBy(run[j], i)
    requires forall l :: j <= l < k ==> i < |run[l].senders| && Waiting(run[l].senders[i])
    ensures (Guarded(run[k], i) && run[k].senders[i].tx == run[j].senders[i].tx) || Settled(run[k], i, run[j].senders[i].tx)
  {
    hide Inv, Next, OthersStandBy;
    if k == j {
      RunInv(c, run, j);
      ArmedIsGuarded(c, run[j], i);
    } else {
      GuardedCallIsNeverDisplaced(c, run, j, k - 1, i);
      RunInv(c, run, k - 1);
      GuardStep(c, run[k - 1], i, run[k]);
    }
  }
}
