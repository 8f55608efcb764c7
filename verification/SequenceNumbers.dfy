/** Message sequence numbers. Slot i starts at i + 1 and every send on it advances its 32-bit
    counter by the number of slots, so the slots' numbers interleave without meeting. */
module SequenceNumbers {
  import opened Arithmetic
  import opened SlotTypes

  /** The counter of slot i after n sends, before it is cut to 32 bits. */
  function Counter(i: nat, n: nat, slots: nat): nat { i + 1 + n * slots }

  /** The number the next send on a slot carries. */
  function Number(i: nat, n: nat, slots: nat): nat { Counter(i, n, slots) % SEQ_MODULUS }

  /** Two sends carry the same number exactly when their counters are a multiple of 2^32 apart. */
  lemma SharedIff(i: nat, n: nat, j: nat, m: nat, slots: nat)
    ensures Number(i, n, slots) == Number(j, m, slots)
      <==> (Counter(i, n, slots) - Counter(j, m, slots)) % SEQ_MODULUS == 0
  {
    var c := Counter(j, m, slots);
    ModSum(c, Counter(i, n, slots) - c, SEQ_MODULUS);
  }

  /** Below 2^32 the number tells the slot and the send apart. */
  lemma NumbersAreDistinct(i: nat, n: nat, j: nat, m: nat, slots: nat)
    requires i < slots && j < slots
    requires Counter(i, n, slots) < SEQ_MODULUS && Counter(j, m, slots) < SEQ_MODULUS
    requires Number(i, n, slots) == Number(j, m, slots)
    ensures i == j && n == m
  {
    var c := Counter(i, n, slots) - 1;
    DivUnique(Counter(i, n, slots), 0, Counter(i, n, slots), SEQ_MODULUS);
    DivUnique(Counter(j, m, slots), 0, Counter(j, m, slots), SEQ_MODULUS);
    DivUnique(c, n, i, slots);
    DivUnique(c, m, j, slots);
  }

  // ---- Every send of a run ----

  /** A number that one of the sends so far carried. */
  ghost predicate Sent(sends: seq<nat>, u: nat) {
    exists i, n :: 0 <= i < |sends| && 0 <= n < sends[i] && u == Number(i, n, |sends|)
  }

  ghost predicate AllSent(sends: seq<nat>, used: seq<nat>) { forall u :: u in used ==> Sent(sends, u) }

  ghost predicate Unwrapped(sends: seq<nat>) {
    forall i :: 0 <= i < |sends| ==> Counter(i, sends[i], |sends|) < SEQ_MODULUS
  }

  lemma StampedIsSent(sends: seq<nat>, used: seq<nat>, i: nat)
    requires AllSent(sends, used) && i < |sends|
    ensures AllSent(sends[i := sends[i] + 1], used + [Number(i, sends[i], |sends|)])
  {
    hide Number;
    var after := sends[i := sends[i] + 1];
    forall u | u in used ensures Sent(after, u) {
      var j, n :| 0 <= j < |sends| && 0 <= n < sends[j] && u == Number(j, n, |sends|);
      assert n < after[j];
    }
    assert Sent(after, Number(i, sends[i], |sends|)) by { assert sends[i] < after[i]; }
  }

  lemma StampedIsNew(sends: seq<nat>, used: seq<nat>, i: nat)
    requires AllSent(sends, used) && i < |sends| && Unwrapped(sends)
    ensures Number(i, sends[i], |sends|) !in used
  {
    hide Number, Counter;
    forall u | u in used ensures u != Number(i, sends[i], |sends|) {
      var j, n :| 0 <= j < |sends| && 0 <= n < sends[j] && u == Number(j, n, |sends|);
      CounterGrows(j, n, sends[j], |sends|);
      if u == Number(i, sends[i], |sends|) {
        NumbersAreDistinct(i, sends[i], j, n, |sends|);
        assert false;
      }
    }
  }

  /** The slots' counters as both peers keep them, and every number sent so far. */
  class Sequencer {
    var next: seq<nat>
    ghost var sends: seq<nat>
    ghost var used: seq<nat>

    ghost predicate Valid()
      reads this
    {
      && |next| == |sends| && AllSent(sends, used)
      && forall i :: 0 <= i < |next| ==> next[i] == Number(i, sends[i], |next|)
    }

    constructor (slots: nat)
      ensures Valid() && |next| == slots && used == [] && sends == seq(slots, _ => 0)
    {
      next := seq(slots, i requires 0 <= i => (i + 1) % SEQ_MODULUS);
      sends := seq(slots, _ => 0);
      used := [];
    }

    /** Stamps one send on slot i. The number was never used before, on any slot, as long as no
        counter has reached 2^32. */
    method Stamp(i: nat) returns (number: nat)
      requires Valid() && i < |next|
      modifies this
      ensures Valid() && sends == old(sends)[i := old(sends)[i] + 1] && used == old(used) + [number]
      ensures number == (i + 1 + old(sends)[i] * |next|) % 0x1_0000_0000 && |next| == |old(next)|
      ensures old(Unwrapped(sends)) ==> number !in old(used)
    {
      NumberIs(i, sends[i], |next|);
      hide Number, AllSent, Unwrapped;
      number := next[i];
      next := next[i := (next[i] + |next|) % SEQ_MODULUS];
      Advance(i, sends[i], |next|);
      StampedIsSent(sends, used, i);
      if Unwrapped(sends) { StampedIsNew(sends, used, i); }
      sends := sends[i := sends[i] + 1];
      used := used + [number];
    }
  }

  lemma NumberIs(i: nat, n: nat, slots: nat)
    ensures Number(i, n, slots) == (i + 1 + n * slots) % 0x1_0000_0000
  {
  }

  lemma Advance(i: nat, n: nat, slots: nat)
    ensures (Number(i, n, slots) + slots) % SEQ_MODULUS == Number(i, n + 1, slots)
  {
    var c := Counter(i, n, slots);
    assert Counter(i, n + 1, slots) == c + slots;
    ModSum(c % SEQ_MODULUS + slots, c / SEQ_MODULUS * SEQ_MODULUS, SEQ_MODULUS);
    DivUnique(c / SEQ_MODULUS * SEQ_MODULUS, c / SEQ_MODULUS, 0, SEQ_MODULUS);
  }

  lemma CounterGrows(i: nat, n: nat, m: nat, slots: nat)
    requires n <= m
    ensures Counter(i, n, slots) <= Counter(i, m, slots)
  {
    assert (m - n) * slots >= 0;
  }
}
