/** The small-copy ladder: two fixed-size windows, one from each end, that overlap in the middle,
    in place of one copy of exactly n bytes. */
module CopySmall {
  import opened SlotTypes

  /** `was` with n bytes of `src` laid at d. */
  function Copied(was: seq<byte>, d: nat, src: seq<byte>, s: nat, n: nat): (r: seq<byte>)
    requires d + n <= |was| && s + n <= |src|
    ensures |r| == |was|
    ensures forall p :: 0 <= p < |was| ==> r[p] == if d <= p < d + n then src[s + (p - d)] else was[p]
  {
    was[..d] + src[s..s + n] + was[d + n..]
  }

  /** Two windows that cover n bytes between them are one copy of n bytes. */
  lemma TwoWindows(was: seq<byte>, d: nat, src: seq<byte>, s: nat, n: nat, w: nat)
    requires w <= n <= 2 * w && d + n <= |was| && s + n <= |src|
    ensures Copied(Copied(was, d, src, s, w), d + n - w, src, s + n - w, w) == Copied(was, d, src, s, n)
  {
  }

  ghost predicate LeavesGap(was: seq<byte>, src: seq<byte>, n: nat, w: nat)
    requires |was| == n && |src| == n && w <= n
  {
    Copied(Copied(was, 0, src, 0, w), n - w, src, n - w, w) != Copied(was, 0, src, 0, n)
  }

  /** Whenever the windows leave a gap, some input tells them from a copy. */
  lemma WindowsMustMeet(n: nat, w: nat)
    requires 2 * w < n
    ensures exists was, src :: |was| == n && |src| == n && LeavesGap(was, src, n, w)
  {
    var was: seq<byte>, src: seq<byte> := seq(n, _ => 0), seq(n, _ => 1);
    assert Copied(Copied(was, 0, src, 0, w), n - w, src, n - w, w)[w] == 0 && Copied(was, 0, src, 0, n)[w] == 1;
    assert LeavesGap(was, src, n, w);
  }

  method Memcpy(dst: array<byte>, d: nat, src: array<byte>, s: nat, n: nat)
    requires dst != src && d + n <= dst.Length && s + n <= src.Length
    modifies dst
    ensures dst[..] == Copied(old(dst[..]), d, src[..], s, n)
  {
    forall i | 0 <= i < n { dst[d + i] := src[s + i]; }
  }

  /** A window from each end. */
  method Windows(dst: array<byte>, d: nat, src: array<byte>, s: nat, n: nat, w: nat)
    requires dst != src && d + n <= dst.Length && s + n <= src.Length && w <= n <= 2 * w
    modifies dst
    ensures dst[..] == Copied(old(dst[..]), d, src[..], s, n)
  {
    hide Copied;
    TwoWindows(dst[..], d, src[..], s, n, w);
    Memcpy(dst, d, src, s, w);
    Memcpy(dst, d + n - w, src, s + n - w, w);
  }

  /** For every size the ladder copies exactly n bytes and touches nothing else. */
  method Copy(dst: array<byte>, d: nat, src: array<byte>, s: nat, n: nat)
    requires dst != src && d + n <= dst.Length && s + n <= src.Length
    modifies dst
    ensures dst[..] == Copied(old(dst[..]), d, src[..], s, n)
  {
    if n >= 16 {
      if n <= 32 { Windows(dst, d, src, s, n, 16); return; }
      if n <= 64 { Windows(dst, d, src, s, n, 32); return; }
      if n <= 128 { Windows(dst, d, src, s, n, 64); return; }
      if n <= 256 { Windows(dst, d, src, s, n, 128); return; }
      Memcpy(dst, d, src, s, n);
      return;
    }
    if n >= 8 { Windows(dst, d, src, s, n, 8); return; }
    if n >= 4 { Windows(dst, d, src, s, n, 4); return; }
    if n >= 2 { Windows(dst, d, src, s, n, 2); return; }
    if n == 1 { dst[d] := src[s]; }
  }
}
