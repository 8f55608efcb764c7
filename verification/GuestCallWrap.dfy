/** How far off an answer can be. A call checks the 32-bit number of the response it takes, so the
    only foreign answer it can accept is one a whole number of counter wraps later; and with two
    senders and a processor every such distance does occur. */
module GuestCallWrap {
  import opened Arithmetic
  import opened SlotTypes
  import opened GuestCall
  import opened GuestCallInvariant
  import opened GuestCallTheorems
  import opened GuestCallRuns
  import opened GuestCallHandOff

  /** Some run returns to a call the answer of the transaction d after its own. */
  ghost predicate Strays(c: Config, n: nat, m: nat, d: nat) {
    exists run, k, e :: RunOf(c, n, m, run) && StraysAt(run, k, e, d)
  }

  ghost predicate StraysAt(run: seq<State>, k: nat, e: Entry, d: nat) {
    k < |run| && e in run[k].past.log && e.Returned? && e.carrier == e.tx + d
  }

  // ---- Constructing one ----

  /** Sender 0 makes d calls in a row on its handle, and leaves the last response unread. */
  lemma {:induction false} Calls(c: Config, run: seq<State>, d: nat) returns (longer: seq<State>)
    requires d > 0 && |run| > 0 && IsRun(c, run) && |Last(run).senders| >= 2 && Sized(c, Last(run).mem)
    requires Last(run).senders[0] == SOwn && |Last(run).procs| > 0 && Last(run).procs[0] == PIdle && c.Valid()
    ensures |longer| > 0 && IsRun(c, longer) && longer[0] == run[0] && Sized(c, Last(longer).mem)
    ensures var s, t := Last(run), Last(longer);
      && t.state == RESP_READY && Carries(c, t, s.mem.nextTx + d - 1) && t.mem.msgType == NORMAL && t.mem.respSize == 0
      && t.procs == s.procs && |t.senders| == |s.senders| && t.senders[0].SWait? && t.senders[1..] == s.senders[1..]
    decreases d
  {
    hide IsRun, SeqOf;
    var s := Last(run);
    longer := run;
    if d > 1 {
      longer := Calls(c, run, d - 1);
      longer := Consumes(c, longer, 0);
      longer := Keeps(c, longer, 0);
    }
    var x;
    longer, x := Exchange(c, longer, 0, EMPTY, Nothing(c));
    assert Last(longer).senders[1..] == s.senders[1..];
  }

  lemma StrayingRun(c: Config, n: nat, m: nat, d: nat) returns (run: seq<State>, e: Entry)
    requires c.Valid() && n >= 2 && m >= 1 && d > 0 && (d * c.stride) % SEQ_MODULUS == 0
    ensures |run| > 0 && RunOf(c, n, m, run) && StraysAt(run, |run| - 1, e, d)
  {
    hide IsRun, SeqOf;
    var x;
    run, x := StalledSteal(c, n, m);
    run := Steals(c, run, 0);
    var held := Last(run).senders;
    run := Calls(c, run, d);
    assert Last(run).senders[1] == held[1] by { assert Last(run).senders[1..][0] == held[1..][0]; }
    SameSeq(c, x, x + d);
    run, e := Receives(c, run, 1);
  }

  // ---- The exact distances ----

  lemma NoStray(c: Config, n: nat, m: nat, d: nat, run: seq<State>, k: nat, e: Entry)
    requires RunOf(c, n, m, run) && StraysAt(run, k, e, d) && d > 0
    ensures n >= 2 && m >= 1 && (d * c.stride) % SEQ_MODULUS == 0
  {
    hide IsRun, Inv, SeqOf;
    ReturnedAnswer(c, run, k, e);
    var log := run[k].past.log;
    var i :| 0 <= i < |log| && log[i] == e;
    if n <= 1 {
      AloneRun(c, run, k);
      assert false;
    }
    if m == 0 {
      UnservedRun(c, run, k);
      assert false;
    }
  }

  /** A call can get the answer of the transaction d after its own, for d > 0, if and only if the
      slot has two senders and a processor and d is a whole number of counter wraps. */
  lemma StraysIff(c: Config, n: nat, m: nat, d: nat)
    requires c.Valid() && d > 0
    ensures Strays(c, n, m, d) <==> n >= 2 && m >= 1 && (d * c.stride) % SEQ_MODULUS == 0
  {
    hide IsRun, StraysAt;
    if Strays(c, n, m, d) {
      var run, k, e :| RunOf(c, n, m, run) && StraysAt(run, k, e, d);
      NoStray(c, n, m, d, run, k, e);
    }
    if n >= 2 && m >= 1 && (d * c.stride) % SEQ_MODULUS == 0 {
      var run, e := StrayingRun(c, n, m, d);
      assert StraysAt(run, |run| - 1, e, d);
    }
  }

  /** Over runs of any length, every returned answer is to the call's own request if and only if
      one sender at most uses the slot or nobody answers. */
  lemma AlwaysOwnIff(c: Config, n: nat, m: nat)
    requires c.Valid()
    ensures (forall d: nat :: d > 0 ==> !Strays(c, n, m, d)) <==> n <= 1 || m == 0
  {
    hide Strays;
    forall d: nat | d > 0 ensures Strays(c, n, m, d) ==> n >= 2 && m >= 1 { StraysIff(c, n, m, d); }
    var wrap: nat := SEQ_MODULUS;
    DivUnique(wrap * c.stride, c.stride, 0, wrap);
    StraysIff(c, n, m, wrap);
  }
}
