/** The single-producer single-consumer byte ring between the C++ writer and the Go reader:
    the two in-place operations, and their interleaving one byte copy or atomic access at a time. */
module RingBuffer {
  import opened Arithmetic
  import opened SlotTypes

  // ---- Modular positions ----

  /** The position of an offset in a ring. */
  function Pos(offset: nat, cap: nat): (p: nat)
    requires cap > 0
    ensures p < cap
  {
    offset % cap
  }

  /** The two-piece copy both sides use: k bytes past an offset is k bytes past its position, or
      wrapped around to the start. */
  lemma Wrapped(base: nat, k: nat, cap: nat)
    requires cap > 0 && k <= cap
    ensures Pos(base + k, cap) == if Pos(base, cap) + k < cap then Pos(base, cap) + k else Pos(base, cap) + k - cap
  {
    var q, r := base / cap, base % cap;
    assert base + k == q * cap + (r + k);
    if r + k < cap {
      DivUnique(base + k, q, r + k, cap);
    } else {
      assert base + k == (q + 1) * cap + (r + k - cap);
      DivUnique(base + k, q + 1, r + k - cap, cap);
    }
  }

  /** Two offsets less than a capacity apart never share a position. */
  lemma DistinctPositions(i: nat, j: nat, cap: nat)
    requires cap > 0 && i < j < i + cap
    ensures Pos(i, cap) != Pos(j, cap)
  {
    Wrapped(i, j - i, cap);
  }

  /** The bytes at offsets lo..hi of a ring. */
  function Window(data: seq<byte>, lo: nat, hi: nat): (s: seq<byte>)
    requires |data| > 0 && lo <= hi
    ensures |s| == hi - lo
    ensures forall i :: 0 <= i < |s| ==> s[i] == data[Pos(lo + i, |data|)]
  {
    seq(hi - lo, i requires 0 <= i < hi - lo => data[Pos(lo + i, |data|)])
  }

  /** Storing n bytes from offset w, in two pieces, misses every offset still unread. */
  lemma Untouched(i: nat, w: nat, n: nat, cap: nat)
    requires cap > 0 && i < w && w + n <= i + cap
    ensures var contiguous := cap - Pos(w, cap);
            var chunk := if n < contiguous then n else contiguous;
            !(Pos(w, cap) <= Pos(i, cap) < Pos(w, cap) + chunk) && !(Pos(i, cap) < n - chunk)
  {
    Wrapped(i, w - i, cap);
    hide Pos;
  }

  /** memcpy as a function. */
  function Overwrite(s: seq<byte>, at: nat, src: seq<byte>): (t: seq<byte>)
    requires at + |src| <= |s|
    ensures |t| == |s|
    ensures forall i :: 0 <= i < |s| ==> t[i] == if at <= i < at + |src| then src[i - at] else s[i]
  {
    s[..at] + src + s[at + |src|..]
  }

  /** Storing `src` from offset w, in at most two pieces. */
  function Stored(data: seq<byte>, w: nat, src: seq<byte>): (t: seq<byte>)
    requires 0 < |data| && |src| <= |data|
    ensures |t| == |data|
  {
    var at := Pos(w, |data|);
    var chunk := if |src| < |data| - at then |src| else |data| - at;
    Overwrite(Overwrite(data, at, src[..chunk]), 0, src[chunk..])
  }

  /** Storing into free space appends to what is unread. */
  lemma StoredAppends(data: seq<byte>, r: nat, w: nat, src: seq<byte>)
    requires 0 < |data| && r <= w && w + |src| <= r + |data|
    ensures Window(Stored(data, w, src), r, w + |src|) == Window(data, r, w) + src
  {
    hide Pos;
    var n, cap := |src|, |data|;
    var t := Stored(data, w, src);
    forall i | 0 <= i < w - r + n ensures t[Pos(r + i, cap)] == (Window(data, r, w) + src)[i] {
      if i < w - r {
        Untouched(r + i, w, n, cap);
      } else {
        Wrapped(w, r + i - w, cap);
        assert w + (r + i - w) == r + i;
      }
    }
  }

  class Ring {
    const data: array<byte>
    var writeOffset: nat
    var readOffset: nat

    ghost predicate Valid()
      reads this
    {
      data.Length > 0 && readOffset <= writeOffset <= readOffset + data.Length
    }

    /** The bytes written and not yet read, oldest first. */
    ghost function Contents(): seq<byte>
      requires Valid()
      reads this, data
    {
      Window(data[..], readOffset, writeOffset)
    }

    constructor (capacity: nat)
      requires capacity > 0
      ensures Valid() && fresh(data) && data.Length == capacity && Contents() == []
    {
      data := new byte[capacity](_ => 0);
      writeOffset, readOffset := 0, 0;
    }

    /** One pass of the writer's loop: as much of `src` as fits, in at most two pieces. Offsets
        out of order read as a full ring, since their unsigned difference is huge. */
    method WritePass(src: seq<byte>) returns (n: nat)
      requires data.Length > 0
      modifies this`writeOffset, data
      ensures readOffset == old(readOffset) && writeOffset == old(writeOffset) + n && n <= |src|
      ensures !old(Valid()) ==> n == 0 && data[..] == old(data[..])
      ensures old(Valid()) ==> Valid() && Contents() == old(Contents()) + src[..n]
      ensures old(Valid()) ==> n == if |src| < data.Length - |old(Contents())| then |src| else data.Length - |old(Contents())|
    {
      hide Pos;
      var w, r, cap := writeOffset, readOffset, data.Length;
      if w < r || w - r >= cap {
        assert src[..0] == [];
        return 0;
      }
      var usage := w - r;
      var available := cap - usage;
      n := if |src| < available then |src| else available;
      StoredAppends(data[..], r, w, src[..n]);
      StoreAt(data, w, src[..n]);
      writeOffset := w + n;
    }

    /** The writer's whole loop, with the reader taking up to turns[k] bytes before pass k: bytes
        come out in the order they went in, none lost and none invented, and a reader that keeps
        reading lets the writer finish. */
    method Write(src: seq<byte>, turns: seq<nat>) returns (sent: nat, received: seq<byte>)
      requires Valid()
      modifies this, data
      ensures Valid() && sent <= |src|
      ensures old(Contents()) + src[..sent] == received + Contents()
      ensures (forall k :: 0 <= k < |turns| ==> turns[k] > 0) && |src| <= |turns| ==> sent == |src|
    {
      sent, received := 0, [];
      var k := 0;
      while sent < |src| && k < |turns|
        invariant Valid() && sent <= |src| && k <= |turns|
        invariant old(Contents()) + src[..sent] == received + Contents()
        invariant (forall j :: 0 <= j < |turns| ==> turns[j] > 0) ==> sent >= k || sent == |src|
      {
        var out := new byte[turns[k]](_ => 0);
        ghost var held := Contents();
        var taken := Read(out);
        var n := WritePass(src[sent..]);
        FifoStep(old(Contents()), src[..sent], received, held, taken, src[sent..][..n]);
        assert src[..sent] + src[sent..][..n] == src[..sent + n];
        received := received + out[..taken];
        sent, k := sent + n, k + 1;
      }
    }

    /** Copies out up to out.Length available bytes, in at most two pieces. A header whose offsets
        cannot be is answered with nothing. */
    method Read(out: array<byte>) returns (n: nat)
      requires data.Length > 0 && out != data
      modifies this`readOffset, out
      ensures readOffset == old(readOffset) + n && n <= out.Length && out[n..] == old(out[n..])
      ensures !old(Valid()) ==> n == 0
      ensures old(Valid()) ==> Valid() && n <= |old(Contents())| && Contents() == old(Contents())[n..]
      ensures old(Valid()) ==> out[..n] == old(Contents())[..n] && (n == out.Length || n == |old(Contents())|)
    {
      hide Pos;
      var w, r, cap := writeOffset, readOffset, data.Length;
      if w == r || w < r || w - r > cap {
        assert out[..] == old(out[..]);
        return 0;
      }
      var available := w - r;
      n := if available < out.Length then available else out.Length;
      FetchAt(data, r, out, n);
      readOffset := r + n;
    }
  }

  /** Taking from the front and appending at the back keeps the order. */
  lemma FifoStep(start: seq<byte>, done: seq<byte>, received: seq<byte>, held: seq<byte>, taken: nat, more: seq<byte>)
    requires start + done == received + held && taken <= |held|
    ensures start + (done + more) == (received + held[..taken]) + (held[taken..] + more)
  {
    calc {
      start + (done + more);
      (start + done) + more;
      (received + held) + more;
      { assert held == held[..taken] + held[taken..]; }
      (received + held[..taken]) + (held[taken..] + more);
    }
  }

  /** memcpy into an array. */
  method CopyIn(dst: array<byte>, at: nat, src: seq<byte>)
    requires at + |src| <= dst.Length
    modifies dst
    ensures dst[..] == Overwrite(old(dst[..]), at, src)
  {
    var k := 0;
    while k < |src|
      invariant 0 <= k <= |src|
      invariant dst[..] == Overwrite(old(dst[..]), at, src[..k])
    {
      dst[at + k] := src[k];
      k := k + 1;
    }
  }

  /** The writer's circular store: up to the end of the ring, then from its start. */
  method StoreAt(dst: array<byte>, w: nat, src: seq<byte>)
    requires 0 < dst.Length && |src| <= dst.Length
    modifies dst
    ensures dst[..] == Stored(old(dst[..]), w, src)
  {
    hide Pos;
    var writeIdx := Pos(w, dst.Length);
    var contiguous := dst.Length - writeIdx;
    var chunk := if |src| < contiguous then |src| else contiguous;
    CopyIn(dst, writeIdx, src[..chunk]);
    if chunk < |src| {
      CopyIn(dst, 0, src[chunk..]);
    }
  }

  /** A window is a run up to the end of the ring and a run from its start. */
  lemma TwoPieces(data: seq<byte>, r: nat, n: nat, chunk: nat)
    requires 0 < |data| && n <= |data| && chunk <= n
    requires chunk == if n > |data| - Pos(r, |data|) then |data| - Pos(r, |data|) else n
    ensures var p := Pos(r, |data|);
      p + chunk <= |data| && Window(data, r, r + n) == data[p..p + chunk] + data[0..n - chunk]
  {
    hide Pos;
    var p, s := Pos(r, |data|), Window(data, r, r + n);
    forall k | 0 <= k < n ensures s[k] == (data[p..p + chunk] + data[0..n - chunk])[k] {
      Wrapped(r, k, |data|);
    }
  }

  lemma OverwriteTwice(s: seq<byte>, a: seq<byte>, b: seq<byte>)
    requires |a| + |b| <= |s|
    ensures Overwrite(Overwrite(s, 0, a), |a|, b) == a + b + s[|a| + |b|..]
    ensures Overwrite(s, 0, a) == a + s[|a|..]
  {
  }

  /** The reader's circular fetch of n bytes from offset r. */
  method FetchAt(data: array<byte>, r: nat, out: array<byte>, n: nat)
    requires 0 < data.Length && n <= data.Length && n <= out.Length && out != data
    modifies out
    ensures out[..] == Window(data[..], r, r + n) + old(out[n..])
  {
    hide Pos, Window, Overwrite;
    var readIdx, cap := Pos(r, data.Length), data.Length;
    var contiguous := cap - readIdx;
    var chunk := if n > contiguous then contiguous else n;
    ghost var a, b := data[..][readIdx..readIdx + chunk], data[..][0..n - chunk];
    TwoPieces(data[..], r, n, chunk);
    OverwriteTwice(out[..], a, b);
    assert data[readIdx..readIdx + chunk] == a && data[0..n - chunk] == b;
    CopyIn(out, 0, data[readIdx..readIdx + chunk]);
    if chunk < n {
      CopyIn(out, chunk, data[0..n - chunk]);
    }
    assert chunk == n ==> a + b == a;
    assert old(out[..])[n..] == old(out[n..]);
  }
}
