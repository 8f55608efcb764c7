/** The request doorbell of all guest slots: one waiter parks on one auto-reset event shared by
    every slot, and any number of senders skip the signal when the slot's host flag says the waiter
    is awake. One step per atomic access, so marking and rechecking N slots are N steps each. */
module GuestDoorbell {
  import opened SlotTypes

  datatype Waiter =
    | Awake                        // spinning or processing
    | Marking(k: nat)              // slots below k are marked WAITING
    | Rechecking(k: nat)           // all marked; slots below k were seen without a request
    | Blocked
    | Clearing(k: nat)             // slots below k are back to ACTIVE

  datatype Sender =
    | Elsewhere
    | Published(slot: nat)         // request stored, host flag load next
    | MustSignal(slot: nat)        // flag was WAITING, signal next
    | Past(slot: nat)              // past its check

  /** `from[j]` is the sender whose request slot j last got; no step depends on it. */
  datatype State = State(state: seq<SlotState>, waiting: seq<bool>, event: bool,
                         waiter: Waiter, senders: seq<Sender>, from: seq<nat>)

  ghost predicate Init(s: State) {
    && |s.state| == |s.waiting| == |s.from|
    && (forall j :: 0 <= j < |s.state| ==> s.state[j] == FREE && !s.waiting[j])
    && !s.event && s.waiter == Awake
    && forall i :: 0 <= i < |s.senders| ==> s.senders[i] == Elsewhere
  }

  /** WaitForRequest: mark every slot, recheck every slot, park, clear every mark. */
  ghost predicate WaiterStep(s: State, t: State)
    requires |s.state| == |s.waiting|
  {
    var n := |s.state|;
    match s.waiter
    case Awake => t == s.(waiter := Marking(0))
    case Marking(k) =>
      if k < n then t == s.(waiter := Marking(k + 1), waiting := s.waiting[k := true])
      else t == s.(waiter := Rechecking(0))
    case Rechecking(k) =>
      if k < n then t == s.(waiter := if s.state[k] == REQ_READY then Clearing(0) else Rechecking(k + 1))
      else t == s.(waiter := Blocked)
    case Blocked =>
      || (s.event && t == s.(waiter := Clearing(0), event := false))
      || t == s.(waiter := Clearing(0))                // the wait timed out
    case Clearing(k) =>
      if k < n then t == s.(waiter := Clearing(k + 1), waiting := s.waiting[k := false])
      else t == s.(waiter := Awake)
  }

  /** A sender publishes on slot j, looks at that slot's host flag, and signals if it must. */
  ghost predicate SenderStep(s: State, i: nat, t: State)
    requires i < |s.senders| && |s.state| == |s.waiting| == |s.from|
  {
    match s.senders[i]
    case Published(j) =>
      j < |s.state| && t == s.(senders := s.senders[i := if s.waiting[j] then MustSignal(j) else Past(j)])
    case MustSignal(j) => t == s.(senders := s.senders[i := Past(j)], event := true)
    case _ =>
      exists j: nat :: j < |s.state|
        && t == s.(senders := s.senders[i := Published(j)], state := s.state[j := REQ_READY], from := s.from[j := i])
  }

  /** Everyone else: a slot moves to any other state, or the shutdown path rings the bell. */
  ghost predicate OtherStep(s: State, t: State) {
    (exists j: nat, st: SlotState :: SlotMoves(s, j, st, t)) || t == s.(event := true)
  }

  ghost predicate SlotMoves(s: State, j: nat, st: SlotState, t: State) {
    j < |s.state| && st != REQ_READY && t == s.(state := s.state[j := st])
  }

  ghost predicate Next(s: State, t: State) {
    && |s.state| == |s.waiting| == |s.from|
    && (WaiterStep(s, t) || OtherStep(s, t) || exists i: nat :: i < |s.senders| && SenderStep(s, i, t))
  }

  ghost predicate IsRun(run: seq<State>) {
    && |run| > 0 && Init(run[0])
    && forall k :: 0 <= k < |run| - 1 ==> Next(run[k], run[k + 1])
  }

  /** The waiter has looked at slot j in this round and will not look again before parking. */
  predicate Overlooked(w: Waiter, j: nat) { w.Blocked? || (w.Rechecking? && j < w.k) }

  /** The waiter is between marking slot j and clearing it. */
  predicate Marked(w: Waiter, j: nat) {
    w.Blocked? || w.Rechecking? || (w.Marking? && j < w.k)
  }

  /** The sender of slot j's current request has yet to check, or to ring. */
  predicate Undecided(s: State, j: nat)
    requires j < |s.from|
  {
    s.from[j] < |s.senders| && (s.senders[s.from[j]] == Published(j) || s.senders[s.from[j]] == MustSignal(j))
  }

  ghost predicate Inv(s: State) {
    && |s.state| == |s.waiting| == |s.from|
    && (forall j :: 0 <= j < |s.state| && s.state[j] == REQ_READY ==> s.from[j] < |s.senders|)
    && (forall j :: 0 <= j < |s.state| && Marked(s.waiter, j) ==> s.waiting[j])
    && (forall j :: 0 <= j < |s.state| && s.state[j] == REQ_READY && Overlooked(s.waiter, j) && !s.event ==> Undecided(s, j))
  }

  lemma WaiterInv(s: State, t: State)
    requires Inv(s) && WaiterStep(s, t)
    ensures Inv(t)
  {
  }

  lemma SenderInv(s: State, i: nat, t: State)
    requires Inv(s) && i < |s.senders| && SenderStep(s, i, t)
    ensures Inv(t)
  {
  }

  lemma {:induction false} RunInv(run: seq<State>, k: nat)
    requires IsRun(run) && k < |run|
    ensures Inv(run[k])
  {
    if k > 0 {
      RunInv(run, k - 1);
      var s, t := run[k - 1], run[k];
      assert Next(s, t);
      if WaiterStep(s, t) {
        WaiterInv(s, t);
      } else if !OtherStep(s, t) {
        var i: nat :| i < |s.senders| && SenderStep(s, i, t);
        SenderInv(s, i, t);
      }
    }
  }

  /** In no reachable state is the waiter parked with the event unset while some slot holds a
      request whose sender is past its check. */
  lemma NoRequestIsSleptThrough(run: seq<State>, k: nat, j: nat)
    requires IsRun(run) && k < |run| && j < |run[k].state|
    ensures var s := run[k];
      s.waiter == Blocked && !s.event && s.state[j] == REQ_READY ==> j < |s.from| && Undecided(s, j)
  {
    RunInv(run, k);
  }

  // ---- Marks come off again ----

  /** Slots the waiter has not marked yet, or has cleared already, carry no mark. */
  ghost predicate Tidy(s: State) {
    && |s.state| == |s.waiting|
    && forall j :: 0 <= j < |s.waiting| && s.waiting[j] ==>
         !s.waiter.Awake? && (s.waiter.Marking? ==> j < s.waiter.k) && (s.waiter.Clearing? ==> j >= s.waiter.k)
  }

  /** An awake waiter has taken every mark back, so nobody rings for it. */
  lemma {:induction false} AwakeIsUnmarked(run: seq<State>, k: nat)
    requires IsRun(run) && k < |run|
    ensures Tidy(run[k])
  {
    if k > 0 {
      AwakeIsUnmarked(run, k - 1);
      assert Next(run[k - 1], run[k]);
    }
  }

  // ---- The doorbell rings when it must ----

  function Last(run: seq<State>): State
    requires |run| > 0
  {
    run[|run| - 1]
  }

  lemma Extend(run: seq<State>, t: State) returns (longer: seq<State>)
    requires |run| > 0 && IsRun(run) && Next(Last(run), t)
    ensures |longer| > 0 && IsRun(longer) && Last(longer) == t && longer[0] == run[0]
  {
    hide Next;
    longer := run + [t];
    assert forall k :: 0 <= k < |longer| - 1 ==> longer[k] == run[k] && Next(longer[k], longer[k + 1]);
  }

  function Flags(n: nat, k: nat): seq<bool>
    requires k <= n
  {
    seq(n, j => j < k)
  }

  /** All slots at rest, k of them marked. */
  function Quiet(n: nat, senders: nat, k: nat, waiter: Waiter): State
    requires k <= n
  {
    State(seq(n, _ => FREE), Flags(n, k), false, waiter, seq(senders, _ => Elsewhere), seq(n, _ => 0))
  }

  lemma {:induction false} Marks(n: nat, senders: nat, k: nat) returns (run: seq<State>)
    requires k <= n
    ensures |run| > 0 && IsRun(run) && Last(run) == Quiet(n, senders, k, Marking(k))
  {
    if k == 0 {
      run := [Quiet(n, senders, 0, Awake)];
      run := Extend(run, Quiet(n, senders, 0, Marking(0)));
    } else {
      run := Marks(n, senders, k - 1);
      assert Flags(n, k - 1)[k - 1 := true] == Flags(n, k);
      run := Extend(run, Quiet(n, senders, k, Marking(k)));
    }
  }

  lemma {:induction false} Rechecks(n: nat, senders: nat, k: nat) returns (run: seq<State>)
    requires k <= n
    ensures |run| > 0 && IsRun(run) && Last(run) == Quiet(n, senders, n, Rechecking(k))
  {
    if k == 0 {
      run := Marks(n, senders, n);
      run := Extend(run, Quiet(n, senders, n, Rechecking(0)));
    } else {
      run := Rechecks(n, senders, k - 1);
      run := Extend(run, Quiet(n, senders, n, Rechecking(k)));
    }
  }

  /** With any number of idle slots the waiter does park; a request on any of them then finds its mark,
      rings the bell once, and wakes it. */
  lemma ParkedWaiterIsWoken(n: nat, senders: nat, j: nat, i: nat) returns (run: seq<State>, parked: nat)
    requires j < n && i < senders
    ensures |run| > 0 && IsRun(run) && parked < |run| && run[parked].waiter == Blocked && !run[parked].event
    ensures |Last(run).state| == n && Last(run).state[j] == REQ_READY && Last(run).waiter == Clearing(0) && !Last(run).event
    ensures |Last(run).senders| == senders && Last(run).senders[i] == Past(j)
  {
    run := Rechecks(n, senders, n);
    var s := Quiet(n, senders, n, Blocked);
    run := Extend(run, s);
    parked := |run| - 1;
    ghost var before := run;
    var s1 := s.(senders := s.senders[i := Published(j)], state := s.state[j := REQ_READY], from := s.from[j := i]);
    assert SenderStep(s, i, s1);
    run := RingsFor(run, s1, i, j);
    assert run[parked] == before[parked];
  }

  /** While the waiter is awake a request on any slot is published without ringing. */
  lemma AwakeWaiterIsNotRung(n: nat, senders: nat, j: nat, i: nat) returns (run: seq<State>)
    requires j < n && i < senders
    ensures |run| > 0 && IsRun(run) && Last(run).waiter == Awake && !Last(run).event
    ensures |Last(run).state| == n && Last(run).state[j] == REQ_READY
    ensures |Last(run).senders| == senders && Last(run).senders[i] == Past(j)
  {
    var s := Quiet(n, senders, 0, Awake);
    var s1 := s.(senders := s.senders[i := Published(j)], state := s.state[j := REQ_READY], from := s.from[j := i]);
    assert SenderStep(s, i, s1);
    run := Extend([s], s1);
    var s2 := s1.(senders := s1.senders[i := Past(j)]);
    assert SenderStep(s1, i, s2);
    run := Extend(run, s2);
  }

  lemma RingsFor(run: seq<State>, s1: State, i: nat, j: nat) returns (longer: seq<State>)
    requires |run| > 0 && IsRun(run) && Last(run).waiter == Blocked && |s1.state| == |s1.waiting| == |s1.from|
    requires i < |Last(run).senders| && Next(Last(run), s1) && s1.waiter == Blocked && i < |s1.senders| && s1.senders[i] == Published(j)
    requires j < |s1.state| && s1.waiting[j]
    ensures |longer| > |run| && IsRun(longer) && longer[..|run|] == run
    ensures Last(longer) == s1.(senders := s1.senders[i := Past(j)], waiter := Clearing(0), event := false)
  {
    hide IsRun;
    var s2 := s1.(senders := s1.senders[i := MustSignal(j)]);
    var s3 := s2.(senders := s2.senders[i := Past(j)], event := true);
    var s4 := s3.(waiter := Clearing(0), event := false);
    assert SenderStep(s1, i, s2) && SenderStep(s2, i, s3) && WaiterStep(s3, s4);
    longer := run + [s1, s2, s3, s4];
    FourMore(run, s1, s2, s3, s4);
    assert s2.senders[i := Past(j)] == s1.senders[i := Past(j)];
  }

  lemma FourMore(run: seq<State>, s1: State, s2: State, s3: State, s4: State)
    requires |run| > 0 && IsRun(run) && Next(Last(run), s1) && Next(s1, s2) && Next(s2, s3) && Next(s3, s4)
    ensures IsRun(run + [s1, s2, s3, s4])
  {
    hide Next;
    var longer := run + [s1, s2, s3, s4];
    forall k | 0 <= k < |longer| - 1 ensures Next(longer[k], longer[k + 1]) {
      if k < |run| - 1 { assert longer[k] == run[k] && longer[k + 1] == run[k + 1]; }
    }
  }
}
