/** Every interleaving of the ring's writer and reader, one atomic access or one byte copy at a
    time. `written`, `read` and `corrupt` are history: no step depends on them. */
module RingInterleaving {
  import opened SlotTypes
  import opened RingBuffer

  datatype Writer =
    | WIdle                        // between passes
    | WLoaded(r: nat)              // readOffset loaded
    | WCopying(n: nat, k: nat)     // k of n bytes stored

  datatype Reader =
    | RIdle
    | RLoaded(w: nat, want: nat)   // writeOffset loaded, for a buffer of `want` bytes
    | RCopying(n: nat, out: seq<byte>)   // |out| of n bytes fetched

  datatype State = State(
    data: seq<byte>, w: nat, r: nat,
    src: seq<byte>, writer: Writer, reader: Reader,
    written: seq<byte>, read: seq<byte>, corrupt: bool)

  ghost predicate Init(s: State) {
    && |s.data| > 0 && s.w == 0 && s.r == 0 && s.writer == WIdle && s.reader == RIdle
    && s.written == [] && s.read == [] && !s.corrupt
  }

  /** The position the two-piece copy stores byte k of n at, when it starts at offset w. */
  function PieceAt(w: nat, k: nat, cap: nat): nat
    requires cap > 0 && k < cap
  {
    if k < cap - Pos(w, cap) then Pos(w, cap) + k else k - (cap - Pos(w, cap))
  }

  ghost predicate WriterStep(s: State, t: State)
    requires |s.data| > 0
  {
    var cap := |s.data|;
    match s.writer
    case WIdle =>
      if s.src == [] then exists more: seq<byte> :: t == s.(src := more)   // the next Write call
      else t == s.(writer := WLoaded(s.r))
    case WLoaded(r0) =>
      var usage := s.w - r0;
      if usage >= cap then t == s.(writer := WIdle)                        // full: yield and retry
      else t == s.(writer := WCopying(if |s.src| < cap - usage then |s.src| else cap - usage, 0))
    case WCopying(n, k) =>
      if k < n then
        k < |s.src| && k < cap
        && t == s.(data := s.data[PieceAt(s.w, k, cap) := s.src[k]], writer := WCopying(n, k + 1))
      else
        n <= |s.src|
        && t == s.(w := s.w + n, src := s.src[n..], writer := WIdle, written := s.written + s.src[..n])
  }

  ghost predicate ReaderStep(s: State, t: State)
    requires |s.data| > 0
  {
    var cap := |s.data|;
    match s.reader
    case RIdle => exists want: nat :: t == s.(reader := RLoaded(s.w, want))
    case RLoaded(w0, want) =>
      var available := w0 - s.r;
      if available == 0 then t == s.(reader := RIdle)
      else if available < 0 || available > cap then t == s.(reader := RIdle, corrupt := true)   // the wire-boundary guard
      else t == s.(reader := RCopying(if available < want then available else want, []))
    case RCopying(n, out) =>
      if |out| < n then
        |out| < cap && t == s.(reader := RCopying(n, out + [s.data[PieceAt(s.r, |out|, cap)]]))
      else t == s.(r := s.r + n, reader := RIdle, read := s.read + out)
  }

  ghost predicate Next(s: State, t: State) {
    |s.data| > 0 && (WriterStep(s, t) || ReaderStep(s, t))
  }

  ghost predicate IsRun(run: seq<State>) {
    && |run| > 0 && Init(run[0])
    && forall k :: 0 <= k < |run| - 1 ==> Next(run[k], run[k + 1])
  }

  // ---- Invariant ----

  ghost predicate Offsets(s: State) {
    && |s.data| > 0 && s.r <= s.w <= s.r + |s.data|
    && |s.written| == s.w && s.read == s.written[..s.r] && !s.corrupt
  }

  /** Every unread byte is where its offset says. */
  ghost predicate InPlace(s: State) {
    |s.data| > 0 && forall i :: s.r <= i < s.w && i < |s.written| ==> s.data[Pos(i, |s.data|)] == s.written[i]
  }

  ghost predicate WriterOk(s: State) {
    match s.writer
    case WIdle => true
    case WLoaded(r0) => r0 <= s.r && s.src != []
    case WCopying(n, k) =>
      && k <= n <= |s.src| && s.w + n <= s.r + |s.data| && |s.data| > 0
      && forall i :: s.w <= i < s.w + k ==> s.data[Pos(i, |s.data|)] == s.src[i - s.w]
  }

  ghost predicate ReaderOk(s: State) {
    match s.reader
    case RIdle => true
    case RLoaded(w0, _) => s.r <= w0 <= s.w
    case RCopying(n, out) =>
      && s.r + n <= s.w && |out| <= n
      && forall j :: 0 <= j < |out| && s.r + j < |s.written| ==> out[j] == s.written[s.r + j]
  }

  ghost predicate Inv(s: State) {
    Offsets(s) && InPlace(s) && WriterOk(s) && ReaderOk(s)
  }

  lemma PieceIsWrapped(w: nat, k: nat, cap: nat)
    requires cap > 0 && k < cap
    ensures PieceAt(w, k, cap) == Pos(w + k, cap)
  {
    Wrapped(w, k, cap);
  }

  /** A free position is not the position of any offset in use. */
  lemma FreePosition(lo: nat, at: nat, cap: nat)
    requires cap > 0 && lo <= at < lo + cap
    ensures forall i :: lo <= i < at ==> Pos(i, cap) != Pos(at, cap)
  {
    hide Pos;
    forall i | lo <= i < at ensures Pos(i, cap) != Pos(at, cap) { DistinctPositions(i, at, cap); }
  }

  /** One byte stored in free space disturbs nothing unread and nothing stored before it. */
  lemma StoreInv(s: State, t: State)
    requires Inv(s) && s.writer.WCopying? && s.writer.k < s.writer.n && WriterStep(s, t)
    ensures Inv(t)
  {
    hide Pos, PieceAt;
    PieceIsWrapped(s.w, s.writer.k, |s.data|);
    FreePosition(s.r, s.w + s.writer.k, |s.data|);
  }

  /** The committed bytes become readable. */
  lemma CommitInv(s: State, t: State)
    requires Inv(s) && s.writer.WCopying? && s.writer.k == s.writer.n && WriterStep(s, t)
    ensures Inv(t)
  {
    hide Pos, PieceAt;
  }

  lemma WriterInv(s: State, t: State)
    requires Inv(s) && WriterStep(s, t)
    ensures Inv(t)
  {
    hide Pos, PieceAt;
    if s.writer.WCopying? {
      if s.writer.k < s.writer.n { StoreInv(s, t); } else { CommitInv(s, t); }
    }
  }

  lemma ReaderInv(s: State, t: State)
    requires Inv(s) && ReaderStep(s, t)
    ensures Inv(t)
  {
    hide Pos, PieceAt;
    if s.reader.RCopying? && |s.reader.out| < s.reader.n {
      PieceIsWrapped(s.r, |s.reader.out|, |s.data|);
    }
  }

  lemma {:induction false} RunInv(run: seq<State>, k: nat)
    requires IsRun(run) && k < |run|
    ensures Inv(run[k])
  {
    if k > 0 {
      RunInv(run, k - 1);
      var s, t := run[k - 1], run[k];
      assert Next(s, t);
      hide WriterStep, ReaderStep, Inv;
      if WriterStep(s, t) { WriterInv(s, t); } else { ReaderInv(s, t); }
    }
  }

  /** First in, first out in every interleaving: what was read is a prefix of what was written, the
      rest of it is what the ring holds, the ring never overfills, and the reader's guard against a
      corrupt header never fires. */
  lemma FifoInEveryInterleaving(run: seq<State>, k: nat)
    requires IsRun(run) && k < |run|
    ensures var s := run[k];
      && |s.data| > 0 && s.r <= s.w <= s.r + |s.data| && !s.corrupt
      && s.read <= s.written && s.read + Window(s.data, s.r, s.w) == s.written
  {
    RunInv(run, k);
    var s := run[k];
    hide Pos;
    forall i | 0 <= i < s.w - s.r ensures Window(s.data, s.r, s.w)[i] == s.written[s.r + i] {}
    assert s.written == s.written[..s.r] + s.written[s.r..];
  }

  // ---- Bytes do get through ----

  function Last(run: seq<State>): State
    requires |run| > 0
  {
    run[|run| - 1]
  }

  lemma Extend(run: seq<State>, t: State) returns (longer: seq<State>)
    requires |run| > 0 && IsRun(run) && Next(Last(run), t)
    ensures |longer| > 0 && IsRun(longer) && Last(longer) == t
  {
    hide Next;
    longer := run + [t];
    assert forall k :: 0 <= k < |longer| - 1 ==> longer[k] == run[k] && Next(longer[k], longer[k + 1]);
  }

  /** Both sides are between operations, and the ring is empty. */
  predicate Idle(s: State) { s.writer == WIdle && s.reader == RIdle && s.src == [] && s.r == s.w && |s.data| > 0 }

  function Least(a: nat, b: nat): nat { if a < b then a else b }

  lemma {:induction false} CopiesIn(run: seq<State>) returns (longer: seq<State>)
    requires |run| > 0 && IsRun(run) && Last(run).writer.WCopying?
    requires var s := Last(run); s.writer.k <= s.writer.n <= |s.src| && s.writer.n <= |s.data| && |s.data| > 0
    ensures |longer| > 0 && IsRun(longer) && |Last(longer).data| == |Last(run).data|
    ensures var s := Last(run); Last(longer) == s.(data := Last(longer).data, writer := WCopying(s.writer.n, s.writer.n))
    decreases Last(run).writer.n - Last(run).writer.k
  {
    hide IsRun, ReaderStep, Pos;
    var s := Last(run);
    var n, k := s.writer.n, s.writer.k;
    longer := run;
    if k < n {
      longer := Extend(run, s.(data := s.data[PieceAt(s.w, k, |s.data|) := s.src[k]], writer := WCopying(n, k + 1)));
      longer := CopiesIn(longer);
    }
  }

  /** One pass of a write to an empty ring moves as much as fits. */
  lemma WritesPass(run: seq<State>, bytes: seq<byte>) returns (longer: seq<State>)
    requires |run| > 0 && IsRun(run) && Idle(Last(run)) && |bytes| > 0
    ensures |longer| > 0 && IsRun(longer) && |Last(longer).data| == |Last(run).data|
    ensures var s, t := Last(run), Last(longer); var n := Least(|bytes|, |s.data|);
      t == s.(data := t.data, w := s.w + n, src := bytes[n..], written := s.written + bytes[..n])
  {
    hide IsRun, ReaderStep, Pos;
    var s := Last(run);
    var n := Least(|bytes|, |s.data|);
    var s1 := s.(src := bytes);
    assert WriterStep(s, s1);
    longer := Extend(run, s1);
    longer := Extend(longer, s1.(writer := WLoaded(s.r)));
    longer := Extend(longer, s1.(writer := WCopying(n, 0)));
    longer := CopiesIn(longer);
    var t := Last(longer);
    longer := Extend(longer, t.(w := t.w + n, src := bytes[n..], writer := WIdle, written := t.written + bytes[..n]));
  }

  lemma {:induction false} CopiesOut(run: seq<State>) returns (longer: seq<State>)
    requires |run| > 0 && IsRun(run) && Last(run).reader.RCopying?
    requires var s := Last(run); |s.reader.out| <= s.reader.n <= |s.data| && |s.data| > 0
    ensures |longer| > 0 && IsRun(longer) && Last(longer).reader.RCopying? && |Last(longer).reader.out| == Last(run).reader.n
    ensures var s := Last(run); Last(longer) == s.(reader := RCopying(s.reader.n, Last(longer).reader.out))
    decreases Last(run).reader.n - |Last(run).reader.out|
  {
    hide IsRun, WriterStep, Pos;
    var s := Last(run);
    var n, out := s.reader.n, s.reader.out;
    longer := run;
    if |out| < n {
      longer := Extend(run, s.(reader := RCopying(n, out + [s.data[PieceAt(s.r, |out|, |s.data|)]])));
      longer := CopiesOut(longer);
    }
  }

  /** One read takes all there is, up to the size of its buffer. */
  lemma ReadsPass(run: seq<State>, want: nat) returns (longer: seq<State>)
    requires |run| > 0 && IsRun(run) && Last(run).reader == RIdle
    requires var s := Last(run); 0 <= s.r < s.w <= s.r + |s.data|
    ensures |longer| > 0 && IsRun(longer)
    ensures var s, t := Last(run), Last(longer); t == s.(r := s.r + Least(s.w - s.r, want), read := t.read)
  {
    hide IsRun, WriterStep, Pos;
    var s := Last(run);
    var n := Least(s.w - s.r, want);
    assert ReaderStep(s, s.(reader := RLoaded(s.w, want)));
    longer := Extend(run, s.(reader := RLoaded(s.w, want)));
    longer := Extend(longer, s.(reader := RCopying(n, [])));
    longer := CopiesOut(longer);
    var t := Last(longer);
    longer := Extend(longer, t.(r := s.r + n, reader := RIdle, read := s.read + t.reader.out));
  }

  /** For every capacity and every byte string, some run writes and reads exactly those bytes. */
  lemma {:induction false} EveryStringGetsThrough(cap: nat, bytes: seq<byte>) returns (run: seq<State>)
    requires cap > 0
    ensures |run| > 0 && IsRun(run) && |Last(run).data| == cap && Last(run).written == bytes && Last(run).read == bytes
    ensures Idle(Last(run))
    decreases |bytes|
  {
    if bytes == [] {
      run := [State(seq(cap, _ => 0), 0, 0, [], WIdle, RIdle, [], [], false)];
    } else {
      var init, b := bytes[..|bytes| - 1], bytes[|bytes| - 1];
      run := EveryStringGetsThrough(cap, init);
      hide IsRun;
      run := WritesPass(run, [b]);
      run := ReadsPass(run, 1);
      assert [b][..1] == [b] && [b][1..] == [] && init + [b] == bytes;
      FifoInEveryInterleaving(run, |run| - 1);
    }
  }

  /** After any earlier traffic, one pass of a write moves as much as the ring holds, and one read
      takes as much of that as its buffer holds. */
  lemma BatchGetsThrough(cap: nat, before: seq<byte>, bytes: seq<byte>, want: nat) returns (run: seq<State>)
    requires cap > 0 && |bytes| > 0
    ensures |run| > 0 && IsRun(run) && |Last(run).data| == cap
    ensures var n := Least(|bytes|, cap);
      Last(run).written == before + bytes[..n] && Last(run).read == before + bytes[..Least(n, want)]
  {
    run := EveryStringGetsThrough(cap, before);
    hide IsRun;
    RunInv(run, |run| - 1);
    run := WritesPass(run, bytes);
    run := ReadsPass(run, want);
    RunInv(run, |run| - 1);
    var n := Least(|bytes|, cap);
    assert (before + bytes[..n])[..|before| + Least(n, want)] == before + bytes[..Least(n, want)];
  }
}
