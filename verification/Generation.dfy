/** The claim-generation handshake. Any number of claimants, stealers and reclaimers share a
    slot's `gen`: a claim of a free slot adds one unconditionally; a steal or a reclaim first takes
    a snapshot and later swaps it for its successor, or fails. */
module Generation {

  datatype Action = Snapshot(t: nat) | Add(t: nat) | Swap(t: nat)

  /** `snap` holds each thread's last snapshot, if it took one. */
  datatype State = State(gen: nat, snap: map<nat, nat>)

  predicate Wins(s: State, a: Action) { a.Add? || (a.Swap? && a.t in s.snap && s.snap[a.t] == s.gen) }

  function After(s: State, a: Action): State {
    match a
    case Snapshot(t) => s.(snap := s.snap[t := s.gen])
    case Add(t) => s.(gen := s.gen + 1)
    case Swap(t) => if Wins(s, a) then s.(gen := s.gen + 1) else s
  }

  function Run(s: State, actions: seq<Action>): State {
    if actions == [] then s else After(Run(s, actions[..|actions| - 1]), actions[|actions| - 1])
  }

  function At(s: State, actions: seq<Action>, k: nat): State
    requires k <= |actions|
  {
    Run(s, actions[..k])
  }

  lemma AtStep(s: State, actions: seq<Action>, k: nat)
    requires k < |actions|
    ensures At(s, actions, k + 1) == After(At(s, actions, k), actions[k])
  {
    assert actions[..k + 1][..k] == actions[..k];
  }

  /** Bumps among the actions from j up to k. */
  function Bumps(s: State, actions: seq<Action>, j: nat, k: nat): nat
    requires j <= k <= |actions|
  {
    if j == k then 0 else Bumps(s, actions, j, k - 1) + if Wins(At(s, actions, k - 1), actions[k - 1]) then 1 else 0
  }

  /** The generation counts the bumps, so it never goes back. */
  lemma {:induction false} GenCountsBumps(s: State, actions: seq<Action>, j: nat, k: nat)
    requires j <= k <= |actions|
    ensures At(s, actions, k).gen == At(s, actions, j).gen + Bumps(s, actions, j, k)
  {
    hide At;
    if j < k {
      GenCountsBumps(s, actions, j, k - 1);
      AtStep(s, actions, k - 1);
    }
  }

  /** No two winning actions start from the same generation. */
  lemma EachGenIsSpentOnce(s: State, actions: seq<Action>, i: nat, k: nat)
    requires i < k < |actions| && Wins(At(s, actions, i), actions[i]) && Wins(At(s, actions, k), actions[k])
    ensures At(s, actions, i).gen < At(s, actions, k).gen
  {
    hide At;
    AtStep(s, actions, i);
    GenCountsBumps(s, actions, i + 1, k);
  }

  /** Thread t's last snapshot before action k was action j. */
  ghost predicate LastSnapshot(actions: seq<Action>, j: nat, k: nat, t: nat) {
    j < k <= |actions| && actions[j] == Snapshot(t) && forall i :: j < i < k ==> actions[i] != Snapshot(t)
  }

  lemma {:induction false} SnapshotHeld(s: State, actions: seq<Action>, j: nat, k: nat, t: nat)
    requires LastSnapshot(actions, j, k, t)
    ensures var u := At(s, actions, k); t in u.snap && u.snap[t] == At(s, actions, j).gen
  {
    hide At;
    AtStep(s, actions, k - 1);
    if j + 1 < k { SnapshotHeld(s, actions, j, k - 1, t); }
  }

  /** A steal or reclaim wins exactly when nothing was claimed, stolen or reclaimed since its
      snapshot. */
  lemma SwapWinsIff(s: State, actions: seq<Action>, j: nat, k: nat, t: nat)
    requires k < |actions| && actions[k] == Swap(t) && LastSnapshot(actions, j, k, t)
    ensures Wins(At(s, actions, k), actions[k]) <==> forall i :: j <= i < k ==> !Wins(At(s, actions, i), actions[i])
  {
    hide At;
    SnapshotHeld(s, actions, j, k, t);
    GenCountsBumps(s, actions, j, k);
    NoBumpsIff(s, actions, j, k);
  }

  lemma {:induction false} NoBumpsIff(s: State, actions: seq<Action>, j: nat, k: nat)
    requires j <= k <= |actions|
    ensures Bumps(s, actions, j, k) == 0 <==> forall i :: j <= i < k ==> !Wins(At(s, actions, i), actions[i])
  {
    hide At, Wins;
    if j < k { NoBumpsIff(s, actions, j, k - 1); }
  }
}
