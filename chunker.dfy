/**
 * `SimpleTextSplitter`: cuts a document body into overlapping chunks.
 *
 * Texts no longer than the chunk size come back whole. Longer texts are
 * scanned in windows of `chunkSize` characters; each window is cut just after
 * the last occurrence of the first separator (in priority order) found in it,
 * or at its end, and the next window starts `overlap` characters before that
 * cut (or at the cut, when that would not be a positive index).
 *
 * The loop is specified in two layers. `WindowStart(len, cfg, cut, n)` is the
 * window start before the n-th iteration for an arbitrary cut rule `cut`;
 * the facts about the loop's course (a final window stays final, a repeated
 * start repeats forever, coverage, progress) are proved at that level. The
 * splitter's own cut rule is `Cutter(text, cfg)`, and `StartAt`, `EndAt`,
 * `Split` instantiate the first layer with it. The loop does not always end:
 * when a start repeats, it cycles forever (`CycleNeverEnds`), and a one-space
 * document does exactly that with the production settings
 * (`OneSpaceDocumentNeverSplits`).
 */
module Chunker {

  /** Separators in priority order: paragraph, line, sentence ends, word. */
  const Separators: seq<string> := ["\n\n", "\n", ". ", "! ", "? ", " "]

  /** The splitter's settings: `chunk_size`, `chunk_overlap` and `separators`. */
  datatype Settings = Settings(chunkSize: int, overlap: int, separators: seq<string>)
  {
    /** The settings under which the splitting loop is modelled. */
    predicate Valid() {
      chunkSize >= 1 && overlap >= 0
    }
  }

  /** The settings the vector store builds its splitter with. */
  const Production := Settings(1000, 200, Separators)

  /** `sub` occurs in `text` at position `i`. */
  predicate OccursAt(text: string, sub: string, i: int) {
    0 <= i && i + |sub| <= |text| && text[i..i + |sub|] == sub
  }

  /** `sub` occurs at `i`, wholly inside the window `[lo, hi)`. */
  predicate InWindow(text: string, sub: string, lo: int, hi: int, i: int) {
    lo <= i && i + |sub| <= hi && OccursAt(text, sub, i)
  }

  /** `sub` occurs somewhere wholly inside `[lo, hi)`. */
  ghost predicate FoundIn(text: string, sub: string, lo: int, hi: int) {
    exists i :: InWindow(text, sub, lo, hi, i)
  }

  /** `p` is the last occurrence of `sub` wholly inside `[lo, hi)`. */
  ghost predicate LastIn(text: string, sub: string, lo: int, hi: int, p: int) {
    InWindow(text, sub, lo, hi, p) && forall i :: InWindow(text, sub, lo, hi, i) ==> i <= p
  }

  /** `text.rfind(sub, lo, hi)`: the highest index of an occurrence inside `[lo, hi)`, or -1. */
  function RFind(text: string, sub: string, lo: int, hi: int): (r: int)
    requires 0 <= lo && hi <= |text|
    ensures r == -1 || InWindow(text, sub, lo, hi, r)
    ensures forall i :: InWindow(text, sub, lo, hi, i) ==> r != -1 && i <= r
    ensures |sub| == 0 && lo <= hi ==> r == hi
    decreases hi - lo
  {
    if hi - |sub| < lo then -1
    else if text[hi - |sub|..hi] == sub then hi - |sub|
    else
      assert forall i :: InWindow(text, sub, lo, hi, i) ==> InWindow(text, sub, lo, hi - 1, i);
      RFind(text, sub, lo, hi - 1)
  }

  /**
   * The cut point the separator scan picks in the window `[start, end)` when
   * the last `rest` separators of `seps` are still to be tried, in order: just
   * after the last occurrence of the first of them that occurs, or `end` (see
   * `CutWhenNoSeparator` and `CutAfterFirstSeparator`).
   */
  function CutFrom(text: string, start: int, end: int, seps: seq<string>, rest: nat): (c: int)
    requires 0 <= start < end <= |text| && rest <= |seps|
    ensures start < c <= end
    decreases rest
  {
    if rest == 0 then end
    else
      var sep := seps[|seps| - rest];
      var p := RFind(text, sep, start, end);
      if p != -1 then p + |sep| else CutFrom(text, start, end, seps, rest - 1)
  }

  /** When none of the separators still to be tried occurs in the window, the cut is the window end. */
  lemma {:induction false} CutWhenNoSeparator(text: string, start: int, end: int, seps: seq<string>, rest: nat)
    requires 0 <= start < end <= |text| && rest <= |seps|
    requires forall k :: |seps| - rest <= k < |seps| ==> !FoundIn(text, seps[k], start, end)
    ensures CutFrom(text, start, end, seps, rest) == end
    decreases rest
  {
    if rest > 0 {
      CutWhenNoSeparator(text, start, end, seps, rest - 1);
    }
  }

  /**
   * The cut sits right after the last in-window occurrence of `seps[f]`, the
   * first separator still to be tried that occurs in the window.
   */
  lemma {:induction false} CutAfterFirstSeparator(text: string, start: int, end: int, seps: seq<string>, rest: nat, f: nat)
    requires 0 <= start < end <= |text| && rest <= |seps|
    requires |seps| - rest <= f < |seps| && FoundIn(text, seps[f], start, end)
    requires forall k :: |seps| - rest <= k < f ==> !FoundIn(text, seps[k], start, end)
    ensures LastIn(text, seps[f], start, end, CutFrom(text, start, end, seps, rest) - |seps[f]|)
    decreases rest
  {
    var j := |seps| - rest;
    var p := RFind(text, seps[j], start, end);
    if j < f {
      assert p == -1;
      CutAfterFirstSeparator(text, start, end, seps, rest - 1, f);
    }
  }

  // ---------------------------------------------------------------------
  // The course of the loop, for a text of length `len` and any cut rule.
  // ---------------------------------------------------------------------

  /** The window starting at `s` reaches the end of the text: it becomes the last chunk. */
  predicate IsFinal(len: int, cfg: Settings, s: int) {
    s + cfg.chunkSize >= len
  }

  /** The next window start after a cut: `cut - overlap`, or `cut` when that is not positive. */
  function NextStart(cut: int, overlap: int): (s: int)
    ensures s == cut || s == cut - overlap
    ensures overlap >= 0 ==> cut - overlap <= s <= cut
    ensures cut > 0 ==> s > 0
  {
    if cut - overlap <= 0 then cut else cut - overlap
  }

  /** One iteration: a final window stays put, any other moves to the start after its cut. */
  function Advance(len: int, cfg: Settings, cut: int -> int, s: int): int {
    if IsFinal(len, cfg, s) then s else NextStart(cut(s), cfg.overlap)
  }

  /** The window start before the n-th iteration. */
  function WindowStart(len: int, cfg: Settings, cut: int -> int, n: nat): int {
    if n == 0 then 0 else Advance(len, cfg, cut, WindowStart(len, cfg, cut, n - 1))
  }

  /** The end of the n-th chunk: the cut of its window, or the end of the text for the last one. */
  function WindowEnd(len: int, cfg: Settings, cut: int -> int, n: nat): int {
    var s := WindowStart(len, cfg, cut, n);
    if IsFinal(len, cfg, s) then len else cut(s)
  }

  /** The cut of every non-final window lies inside it, after its first character. */
  ghost predicate CutsInside(len: int, cfg: Settings, cut: int -> int) {
    forall s :: 0 <= s && !IsFinal(len, cfg, s) ==> s < cut(s) <= s + cfg.chunkSize
  }

  /** The loop reaches a final window. */
  ghost predicate Reaches(len: int, cfg: Settings, cut: int -> int) {
    exists n: nat :: IsFinal(len, cfg, WindowStart(len, cfg, cut, n))
  }

  /** Every window lies inside the text, is non-empty and spans at most `chunkSize` characters. */
  lemma {:induction false} WindowBounds(len: int, cfg: Settings, cut: int -> int, n: nat)
    requires cfg.Valid() && len > cfg.chunkSize && CutsInside(len, cfg, cut)
    ensures var s := WindowStart(len, cfg, cut, n);
            var e := WindowEnd(len, cfg, cut, n);
            0 <= s < e <= len && e - s <= cfg.chunkSize
    decreases n
  {
    if n > 0 {
      WindowBounds(len, cfg, cut, n - 1);
    }
  }

  /**
   * After a non-final window the next start lies in `[end - overlap, end]`
   * and is positive, so no character is skipped and consecutive chunks share
   * at most `overlap` characters; it moves strictly forward exactly when
   * `end - overlap > start` or the reset to the cut applies.
   */
  lemma StepFacts(len: int, cfg: Settings, cut: int -> int, n: nat)
    requires cfg.Valid() && len > cfg.chunkSize && CutsInside(len, cfg, cut)
    requires !IsFinal(len, cfg, WindowStart(len, cfg, cut, n))
    ensures var s := WindowStart(len, cfg, cut, n);
            var e := WindowEnd(len, cfg, cut, n);
            var s' := WindowStart(len, cfg, cut, n + 1);
            && 1 <= s' <= e
            && e - cfg.overlap <= s'
            && (s' > s <==> (e - cfg.overlap > s || e - cfg.overlap <= 0))
  {
    WindowBounds(len, cfg, cut, n);
  }

  /** Once a window is final, every later start is the same one. */
  lemma {:induction false} FinalIsAbsorbing(len: int, cfg: Settings, cut: int -> int, n: nat, m: nat)
    requires n <= m && IsFinal(len, cfg, WindowStart(len, cfg, cut, n))
    ensures WindowStart(len, cfg, cut, m) == WindowStart(len, cfg, cut, n)
    decreases m - n
  {
    if n < m {
      FinalIsAbsorbing(len, cfg, cut, n, m - 1);
    }
  }

  /** The first final window at or below `n`, searching down from a final one. */
  ghost function FirstFinalBelow(len: int, cfg: Settings, cut: int -> int, n: nat): (k: nat)
    requires IsFinal(len, cfg, WindowStart(len, cfg, cut, n))
    ensures k <= n && IsFinal(len, cfg, WindowStart(len, cfg, cut, k))
    ensures k == 0 || !IsFinal(len, cfg, WindowStart(len, cfg, cut, k - 1))
  {
    if n > 0 && IsFinal(len, cfg, WindowStart(len, cfg, cut, n - 1)) then FirstFinalBelow(len, cfg, cut, n - 1) else n
  }

  /** No window before one whose predecessor is not final is final. */
  lemma NoFinalBefore(len: int, cfg: Settings, cut: int -> int, k: nat, i: nat)
    requires k > 0 && !IsFinal(len, cfg, WindowStart(len, cfg, cut, k - 1))
    requires i < k
    ensures !IsFinal(len, cfg, WindowStart(len, cfg, cut, i))
  {
    if IsFinal(len, cfg, WindowStart(len, cfg, cut, i)) {
      FinalIsAbsorbing(len, cfg, cut, i, k - 1);
    }
  }

  /** Equal starts have equal futures: the loop state is the start alone. */
  lemma {:induction false} SameStartSameFuture(len: int, cfg: Settings, cut: int -> int, a: nat, b: nat, d: nat)
    requires WindowStart(len, cfg, cut, a) == WindowStart(len, cfg, cut, b)
    ensures WindowStart(len, cfg, cut, a + d) == WindowStart(len, cfg, cut, b + d)
    decreases d
  {
    if d > 0 {
      SameStartSameFuture(len, cfg, cut, a, b, d - 1);
      assert a + d - 1 + 1 == a + d && b + d - 1 + 1 == b + d;
    }
  }

  /** Every start from `m` on lies on the cycle through `m`, none of whose starts is final. */
  lemma {:induction false} CycleStaysNonFinal(len: int, cfg: Settings, cut: int -> int, m: nat, p: nat, n: nat)
    requires p >= 1 && m <= n
    requires !IsFinal(len, cfg, WindowStart(len, cfg, cut, m))
    requires WindowStart(len, cfg, cut, m + p) == WindowStart(len, cfg, cut, m)
    ensures !IsFinal(len, cfg, WindowStart(len, cfg, cut, n))
    decreases n
  {
    if n < m + p {
      if IsFinal(len, cfg, WindowStart(len, cfg, cut, n)) {
        FinalIsAbsorbing(len, cfg, cut, n, m + p);
      }
    } else {
      SameStartSameFuture(len, cfg, cut, m, m + p, n - m - p);
      assert m + (n - m - p) == n - p && m + p + (n - m - p) == n;
      CycleStaysNonFinal(len, cfg, cut, m, p, n - p);
    }
  }

  /**
   * A non-final start that comes back after `p >= 1` iterations makes the loop
   * cycle forever: it never reaches a final window.
   */
  lemma CycleNeverEnds(len: int, cfg: Settings, cut: int -> int, m: nat, p: nat)
    requires p >= 1
    requires !IsFinal(len, cfg, WindowStart(len, cfg, cut, m))
    requires WindowStart(len, cfg, cut, m + p) == WindowStart(len, cfg, cut, m)
    ensures !Reaches(len, cfg, cut)
  {
    if Reaches(len, cfg, cut) {
      var n: nat :| IsFinal(len, cfg, WindowStart(len, cfg, cut, n));
      var later := if n < m then m else n;
      FinalIsAbsorbing(len, cfg, cut, n, later);
      CycleStaysNonFinal(len, cfg, cut, m, p, later);
      assert false;
    }
  }

  /** Under steady progress, the n-th start is at least n. */
  lemma {:induction false} StartsGrow(len: int, cfg: Settings, cut: int -> int, n: nat)
    requires forall i: nat :: !IsFinal(len, cfg, WindowStart(len, cfg, cut, i)) ==>
               WindowStart(len, cfg, cut, i + 1) > WindowStart(len, cfg, cut, i)
    requires !IsFinal(len, cfg, WindowStart(len, cfg, cut, n))
    ensures WindowStart(len, cfg, cut, n) >= n
    decreases n
  {
    if n > 0 {
      StartsGrow(len, cfg, cut, n - 1);
    }
  }

  /** When every non-final iteration moves the start forward, the loop reaches a final window. */
  lemma ProgressImpliesTermination(len: int, cfg: Settings, cut: int -> int)
    requires cfg.Valid()
    requires forall i: nat :: !IsFinal(len, cfg, WindowStart(len, cfg, cut, i)) ==>
               WindowStart(len, cfg, cut, i + 1) > WindowStart(len, cfg, cut, i)
    ensures Reaches(len, cfg, cut)
  {
    var n: nat := if len < 0 then 0 else len;
    if !IsFinal(len, cfg, WindowStart(len, cfg, cut, n)) {
      StartsGrow(len, cfg, cut, n);
    }
  }

  /** The largest chunk end among the first `n + 1` chunks. */
  function MaxEnd(len: int, cfg: Settings, cut: int -> int, n: nat): (m: int)
    ensures WindowEnd(len, cfg, cut, n) <= m
  {
    var e := WindowEnd(len, cfg, cut, n);
    if n == 0 then e
    else
      var before := MaxEnd(len, cfg, cut, n - 1);
      if before < e then e else before
  }

  /** Position `x` lies in one of the chunks `0..n`. */
  ghost predicate Covered(len: int, cfg: Settings, cut: int -> int, n: nat, x: int) {
    exists i :: 0 <= i <= n && WindowStart(len, cfg, cut, i) <= x < WindowEnd(len, cfg, cut, i)
  }

  lemma CoveredBy(len: int, cfg: Settings, cut: int -> int, n: nat, i: nat, x: int)
    requires i <= n && WindowStart(len, cfg, cut, i) <= x < WindowEnd(len, cfg, cut, i)
    ensures Covered(len, cfg, cut, n, x)
  {
  }

  lemma CoveredLater(len: int, cfg: Settings, cut: int -> int, n: nat, x: int)
    requires Covered(len, cfg, cut, n, x)
    ensures Covered(len, cfg, cut, n + 1, x)
  {
    var i :| 0 <= i <= n && WindowStart(len, cfg, cut, i) <= x < WindowEnd(len, cfg, cut, i);
    CoveredBy(len, cfg, cut, n + 1, i, x);
  }

  /** No window starts past every earlier chunk's end: the loop never jumps over a character. */
  lemma NoGapBefore(len: int, cfg: Settings, cut: int -> int, n: nat)
    requires cfg.Valid() && len > cfg.chunkSize && CutsInside(len, cfg, cut)
    ensures WindowStart(len, cfg, cut, n + 1) <= MaxEnd(len, cfg, cut, n)
  {
    var s := WindowStart(len, cfg, cut, n);
    assert WindowEnd(len, cfg, cut, n) <= MaxEnd(len, cfg, cut, n);
    if !IsFinal(len, cfg, s) {
      StepFacts(len, cfg, cut, n);
    } else {
      WindowBounds(len, cfg, cut, n);
      assert WindowStart(len, cfg, cut, n + 1) == s;
    }
  }

  /** Chunk `m = n + 1` continues the coverage of the chunks before it. */
  lemma CoveredStep(len: int, cfg: Settings, cut: int -> int, n: nat, m: nat)
    requires cfg.Valid() && len > cfg.chunkSize && CutsInside(len, cfg, cut)
    requires m == n + 1
    requires forall x :: 0 <= x < MaxEnd(len, cfg, cut, n) ==> Covered(len, cfg, cut, n, x)
    ensures forall x :: 0 <= x < MaxEnd(len, cfg, cut, m) ==> Covered(len, cfg, cut, m, x)
  {
    NoGapBefore(len, cfg, cut, n);
    forall x | 0 <= x < MaxEnd(len, cfg, cut, m) ensures Covered(len, cfg, cut, m, x) {
      if x < MaxEnd(len, cfg, cut, n) {
        CoveredLater(len, cfg, cut, n, x);
      } else {
        CoveredBy(len, cfg, cut, m, m, x);
      }
    }
  }

  /** The chunks `0..n` leave no gap: every position before the furthest end lies in one of them. */
  lemma {:induction false} CoveredUpTo(len: int, cfg: Settings, cut: int -> int, n: nat)
    requires cfg.Valid() && len > cfg.chunkSize && CutsInside(len, cfg, cut)
    ensures forall x :: 0 <= x < MaxEnd(len, cfg, cut, n) ==> Covered(len, cfg, cut, n, x)
    decreases n
  {
    if n == 0 {
      forall x | 0 <= x < MaxEnd(len, cfg, cut, 0) ensures Covered(len, cfg, cut, 0, x) {
        CoveredBy(len, cfg, cut, 0, 0, x);
      }
    } else {
      CoveredUpTo(len, cfg, cut, n - 1);
      CoveredStep(len, cfg, cut, n - 1, n);
    }
  }

  // ---------------------------------------------------------------------
  // The splitter's own cut rule and the chunks it produces.
  // ---------------------------------------------------------------------

  /**
   * The cut of the window starting at `s`: the separator scan over
   * `[s, s + chunkSize)`. Outside the windows the loop visits (a final or
   * negative start, invalid settings) the value is never consulted and is
   * taken to be the window end.
   */
  function Cut(text: string, cfg: Settings, s: int): (c: int)
    ensures cfg.Valid() && 0 <= s && !IsFinal(|text|, cfg, s) ==> s < c <= s + cfg.chunkSize
  {
    if cfg.Valid() && 0 <= s && !IsFinal(|text|, cfg, s)
    then CutFrom(text, s, s + cfg.chunkSize, cfg.separators, |cfg.separators|)
    else s + cfg.chunkSize
  }

  /** Inside the windows the loop visits, the cut is the separator scan of the window. */
  lemma CutIsScan(text: string, cfg: Settings, s: int)
    requires cfg.Valid() && 0 <= s && !IsFinal(|text|, cfg, s)
    ensures Cut(text, cfg, s) == CutFrom(text, s, s + cfg.chunkSize, cfg.separators, |cfg.separators|)
  {
  }

  function Cutter(text: string, cfg: Settings): int -> int {
    s => Cut(text, cfg, s)
  }

  lemma CutterInside(text: string, cfg: Settings)
    requires cfg.Valid()
    ensures CutsInside(|text|, cfg, Cutter(text, cfg))
  {
  }

  /** The window start before the n-th iteration of `split_text`. */
  function StartAt(text: string, cfg: Settings, n: nat): int {
    WindowStart(|text|, cfg, Cutter(text, cfg), n)
  }

  /** The end of the n-th chunk of `split_text`. */
  function EndAt(text: string, cfg: Settings, n: nat): int {
    WindowEnd(|text|, cfg, Cutter(text, cfg), n)
  }

  /** The loop of `split_text` reaches its last window: exactly when the Python call returns. */
  ghost predicate SplitTerminates(text: string, cfg: Settings) {
    cfg.Valid() && (|text| <= cfg.chunkSize || Reaches(|text|, cfg, Cutter(text, cfg)))
  }

  /** The index of the last chunk: the first final window. */
  ghost function LastIndex(text: string, cfg: Settings): (k: nat)
    requires SplitTerminates(text, cfg) && |text| > cfg.chunkSize
    ensures IsFinal(|text|, cfg, StartAt(text, cfg, k))
  {
    var n: nat :| IsFinal(|text|, cfg, WindowStart(|text|, cfg, Cutter(text, cfg), n));
    FirstFinalBelow(|text|, cfg, Cutter(text, cfg), n)
  }

  /** Every window before the last one is not final: the loop body runs for each of them. */
  lemma BeforeLastIsInner(text: string, cfg: Settings, i: nat)
    requires SplitTerminates(text, cfg) && |text| > cfg.chunkSize
    requires i < LastIndex(text, cfg)
    ensures !IsFinal(|text|, cfg, StartAt(text, cfg, i))
  {
    NoFinalBefore(|text|, cfg, Cutter(text, cfg), LastIndex(text, cfg), i);
  }

  /** The n-th chunk: the slice of the n-th window up to its cut (or to the end of the text). */
  function ChunkAt(text: string, cfg: Settings, n: nat): (c: string)
    requires cfg.Valid() && |text| > cfg.chunkSize
    ensures 1 <= |c| <= cfg.chunkSize
  {
    CutterInside(text, cfg);
    WindowBounds(|text|, cfg, Cutter(text, cfg), n);
    text[StartAt(text, cfg, n)..EndAt(text, cfg, n)]
  }

  /** The first `n` chunks, in loop order. */
  function Chunks(text: string, cfg: Settings, n: nat): (cs: seq<string>)
    requires cfg.Valid() && |text| > cfg.chunkSize
    ensures |cs| == n
  {
    if n == 0 then [] else Chunks(text, cfg, n - 1) + [ChunkAt(text, cfg, n - 1)]
  }

  /** The i-th of the first `n` chunks is `ChunkAt(i)`. */
  lemma {:induction false} ChunksIndex(text: string, cfg: Settings, n: nat, i: nat)
    requires cfg.Valid() && |text| > cfg.chunkSize
    requires i < n
    ensures Chunks(text, cfg, n)[i] == ChunkAt(text, cfg, i)
    decreases n
  {
    if i < n - 1 {
      ChunksIndex(text, cfg, n - 1, i);
    }
  }

  /** What `split_text` returns, when it returns: one chunk per loop iteration, up to the first final window. */
  ghost function Split(text: string, cfg: Settings): (chunks: seq<string>)
    requires SplitTerminates(text, cfg)
    ensures |chunks| >= 1
    ensures |text| <= cfg.chunkSize ==> chunks == [text]
  {
    if |text| <= cfg.chunkSize then [text]
    else Chunks(text, cfg, LastIndex(text, cfg) + 1)
  }

  /** A non-final window is cut by the separator scan, and the next window starts from that cut. */
  lemma InnerChunk(text: string, cfg: Settings, n: nat)
    requires cfg.Valid() && |text| > cfg.chunkSize
    requires !IsFinal(|text|, cfg, StartAt(text, cfg, n))
    ensures var s := StartAt(text, cfg, n);
            var c := Cut(text, cfg, s);
            && 0 <= s < c <= s + cfg.chunkSize < |text|
            && Chunks(text, cfg, n + 1) == Chunks(text, cfg, n) + [text[s..c]]
            && StartAt(text, cfg, n + 1) == NextStart(c, cfg.overlap)
  {
    CutterInside(text, cfg);
    WindowBounds(|text|, cfg, Cutter(text, cfg), n);
  }

  /** Appending the rest of the text after the loop completes the split. */
  lemma LastChunk(text: string, cfg: Settings, n: nat, chunks: seq<string>)
    requires SplitTerminates(text, cfg) && |text| > cfg.chunkSize
    requires n <= LastIndex(text, cfg) && IsFinal(|text|, cfg, StartAt(text, cfg, n))
    requires chunks == Chunks(text, cfg, n)
    ensures 0 <= StartAt(text, cfg, n) < |text|
    ensures chunks + [text[StartAt(text, cfg, n)..]] == Split(text, cfg)
  {
    SplitEndsWithRest(text, cfg, n);
  }

  /** The chunk of a final window runs to the end of the text. */
  lemma FinalChunk(text: string, cfg: Settings, n: nat)
    requires cfg.Valid() && |text| > cfg.chunkSize
    requires IsFinal(|text|, cfg, StartAt(text, cfg, n))
    ensures 0 <= StartAt(text, cfg, n) < |text| && ChunkAt(text, cfg, n) == text[StartAt(text, cfg, n)..]
  {
    CutterInside(text, cfg);
    WindowBounds(|text|, cfg, Cutter(text, cfg), n);
  }

  /**
   * The split of a long text is the chunks of the windows before the first
   * final one, followed by the rest of the text from that window's start.
   */
  lemma SplitEndsWithRest(text: string, cfg: Settings, n: nat)
    requires SplitTerminates(text, cfg) && |text| > cfg.chunkSize
    requires n <= LastIndex(text, cfg) && IsFinal(|text|, cfg, StartAt(text, cfg, n))
    ensures 0 <= StartAt(text, cfg, n) < |text|
    ensures Split(text, cfg) == Chunks(text, cfg, n) + [text[StartAt(text, cfg, n)..]]
  {
    if n < LastIndex(text, cfg) {
      BeforeLastIsInner(text, cfg, n);
    }
    FinalChunk(text, cfg, n);
  }

  /** The i-th chunk `split_text` returns is the slice of the i-th window. */
  lemma SplitChunkIsWindow(text: string, cfg: Settings, i: nat)
    requires SplitTerminates(text, cfg) && |text| > cfg.chunkSize
    requires i <= LastIndex(text, cfg)
    ensures i < |Split(text, cfg)|
    ensures 0 <= StartAt(text, cfg, i) < EndAt(text, cfg, i) <= |text|
    ensures EndAt(text, cfg, i) - StartAt(text, cfg, i) <= cfg.chunkSize
    ensures Split(text, cfg)[i] == text[StartAt(text, cfg, i)..EndAt(text, cfg, i)]
  {
    CutterInside(text, cfg);
    WindowBounds(|text|, cfg, Cutter(text, cfg), i);
    ChunksIndex(text, cfg, LastIndex(text, cfg) + 1, i);
  }

  /**
   * A text no longer than the chunk size (the empty text included) is one
   * chunk; otherwise every chunk is non-empty and at most `chunkSize` long.
   */
  lemma SplitChunkSizes(text: string, cfg: Settings)
    requires SplitTerminates(text, cfg)
    ensures |text| <= cfg.chunkSize ==> Split(text, cfg) == [text]
    ensures |text| > cfg.chunkSize ==>
              forall i :: 0 <= i < |Split(text, cfg)| ==> 1 <= |Split(text, cfg)[i]| <= cfg.chunkSize
  {
    if |text| > cfg.chunkSize {
      forall i | 0 <= i < |Split(text, cfg)| ensures 1 <= |Split(text, cfg)[i]| <= cfg.chunkSize {
        SplitChunkIsWindow(text, cfg, i);
      }
    }
  }

  /** Every character of the text lies in at least one chunk: the chunks cover the input. */
  lemma EveryCharacterCovered(text: string, cfg: Settings)
    requires SplitTerminates(text, cfg) && |text| > cfg.chunkSize
    ensures forall x :: 0 <= x < |text| ==> Covered(|text|, cfg, Cutter(text, cfg), LastIndex(text, cfg), x)
  {
    var k := LastIndex(text, cfg);
    CutterInside(text, cfg);
    CoveredUpTo(|text|, cfg, Cutter(text, cfg), k);
  }

  /**
   * Every character of the text lies inside one of the chunks `split_text`
   * returns, at the place that chunk was cut from.
   */
  lemma SplitCoversText(text: string, cfg: Settings, x: int)
    requires SplitTerminates(text, cfg) && |text| > cfg.chunkSize
    requires 0 <= x < |text|
    ensures exists i: nat ::
              && i < |Split(text, cfg)|
              && 0 <= StartAt(text, cfg, i) <= x < EndAt(text, cfg, i) <= |text|
              && Split(text, cfg)[i] == text[StartAt(text, cfg, i)..EndAt(text, cfg, i)]
  {
    var k := LastIndex(text, cfg);
    EveryCharacterCovered(text, cfg);
    assert Covered(|text|, cfg, Cutter(text, cfg), k, x);
    var i :| 0 <= i <= k && WindowStart(|text|, cfg, Cutter(text, cfg), i) <= x < WindowEnd(|text|, cfg, Cutter(text, cfg), i);
    SplitChunkIsWindow(text, cfg, i);
  }

  /** Without overlap every iteration moves forward, so `split_text` always returns. */
  lemma NoOverlapAlwaysTerminates(text: string, cfg: Settings)
    requires cfg.Valid() && cfg.overlap == 0
    ensures SplitTerminates(text, cfg)
  {
    if |text| > cfg.chunkSize {
      var cut := Cutter(text, cfg);
      CutterInside(text, cfg);
      forall n: nat | !IsFinal(|text|, cfg, WindowStart(|text|, cfg, cut, n))
        ensures WindowStart(|text|, cfg, cut, n + 1) > WindowStart(|text|, cfg, cut, n)
      {
        StepFacts(|text|, cfg, cut, n);
      }
      ProgressImpliesTermination(|text|, cfg, cut);
    }
  }

  class TextSplitter {
    const chunkSize: int
    const chunkOverlap: int
    const separators: seq<string>

    /** `SimpleTextSplitter(chunk_size=1000, chunk_overlap=200)`: the separators are always `Separators`. */
    constructor (chunkSize: int := 1000, chunkOverlap: int := 200)
      ensures Config() == Settings(chunkSize, chunkOverlap, Separators)
    {
      this.chunkSize := chunkSize;
      this.chunkOverlap := chunkOverlap;
      this.separators := Separators;
    }

    function Config(): Settings {
      Settings(chunkSize, chunkOverlap, separators)
    }

    /** The inner scan of `split_text`: tries each separator in turn on the window `[start, end)`. */
    method FindCut(text: string, start: int, end: int) returns (chunkEnd: int)
      requires 0 <= start < end <= |text|
      ensures chunkEnd == CutFrom(text, start, end, separators, |separators|)
    {
      chunkEnd := end;
      var j := 0;
      while j < |separators|
        invariant 0 <= j <= |separators|
        invariant CutFrom(text, start, end, separators, |separators| - j) == CutFrom(text, start, end, separators, |separators|)
      {
        var sepPos := RFind(text, separators[j], start, end);
        if sepPos != -1 {
          chunkEnd := sepPos + |separators[j]|;
          return;
        }
        j := j + 1;
      }
    }

    /**
     * One pass of the `split_text` loop body over a non-final window: the
     * chunk up to the separator scan's cut, and the next window start.
     */
    method NextChunk(text: string, start: int) returns (chunk: string, next: int)
      requires Config().Valid() && 0 <= start && !IsFinal(|text|, Config(), start)
      ensures chunk == text[start..Cut(text, Config(), start)]
      ensures next == NextStart(Cut(text, Config(), start), chunkOverlap)
    {
      CutIsScan(text, Config(), start);
      var chunkEnd := FindCut(text, start, start + chunkSize);
      chunk := text[start..chunkEnd];
      next := chunkEnd - chunkOverlap;
      if next <= 0 {
        next := chunkEnd;
      }
    }

    /** `split_text`: a text no longer than the chunk size comes back whole, a longer one goes through the loop. */
    method SplitText(text: string) returns (chunks: seq<string>)
      requires SplitTerminates(text, Config())
      ensures chunks == Split(text, Config())
      ensures |text| <= chunkSize ==> chunks == [text]
    {
      if |text| <= chunkSize {
        chunks := [text];
      } else {
        chunks := SplitLong(text);
      }
    }

    /**
     * The loop of `split_text`. The Python loop runs while `start < len(text)`, a
     * guard that is always true inside the loop (every start stays below
     * `len(text)`), and leaves it through the `end >= len(text)` branch; here
     * that branch is the loop guard and the last chunk is appended after the loop.
     */
    method SplitLong(text: string) returns (chunks: seq<string>)
      requires SplitTerminates(text, Config()) && |text| > chunkSize
      ensures chunks == Split(text, Config())
    {
      var cfg := Config();
      ghost var k := LastIndex(text, cfg);
      ghost var n := 0;
      chunks := [];
      var start := 0;
      while !IsFinal(|text|, cfg, start)
        invariant n <= k
        invariant 0 <= start == StartAt(text, cfg, n)
        invariant chunks == Chunks(text, cfg, n)
        decreases k - n
      {
        var chunk, next := NextChunk(text, start);
        InnerChunk(text, cfg, n);
        chunks := chunks + [chunk];
        start := next;
        n := n + 1;
      }
      LastChunk(text, cfg, n, chunks);
      chunks := chunks + [text[start..]];
    }
  }

  /** No character of `text` in `[lo, hi)` is the first character of `sub`. */
  lemma AbsentFirstChar(text: string, sub: string, lo: int, hi: int)
    requires |sub| >= 1 && 0 <= lo
    requires forall i :: lo <= i < hi && i < |text| ==> text[i] != sub[0]
    ensures !FoundIn(text, sub, lo, hi)
  {
    forall i | lo <= i < hi
      ensures !OccursAt(text, sub, i)
    {
      if i + |sub| <= |text| {
        assert text[i..i + |sub|][0] == text[i] != sub[0];
      }
    }
  }

  /** A text without newline, period, exclamation or question mark holds none of the first five separators. */
  lemma OnlyWordSeparator(text: string, lo: int, hi: int)
    requires 0 <= lo
    requires forall i :: 0 <= i < |text| ==> text[i] != '\n' && text[i] != '.' && text[i] != '!' && text[i] != '?'
    ensures forall k :: 0 <= k < 5 ==> !FoundIn(text, Separators[k], lo, hi)
  {
    AbsentFirstChar(text, "\n\n", lo, hi);
    AbsentFirstChar(text, "\n", lo, hi);
    AbsentFirstChar(text, ". ", lo, hi);
    AbsentFirstChar(text, "! ", lo, hi);
    AbsentFirstChar(text, "? ", lo, hi);
  }

  /** In a window whose only separator is the space at `p`, the cut falls right after it. */
  lemma WindowCutAfterSpace(text: string, cfg: Settings, p: int, s: int)
    requires cfg.Valid() && cfg.separators == Separators
    requires 0 <= s <= p && p + 1 <= s + cfg.chunkSize < |text|
    requires forall i :: 0 <= i < |text| ==> (text[i] == ' ' <==> i == p)
    requires forall i :: 0 <= i < |text| ==> text[i] != '\n' && text[i] != '.' && text[i] != '!' && text[i] != '?'
    ensures Cut(text, cfg, s) == p + 1
  {
    var e := s + cfg.chunkSize;
    var seps := cfg.separators;
    OnlyWordSeparator(text, s, e);
    assert text[p..p + 1] == [text[p]] == seps[5];
    assert InWindow(text, seps[5], s, e, p);
    CutAfterFirstSeparator(text, s, e, seps, |seps|, 5);
    var c := Cut(text, cfg, s);
    assert InWindow(text, seps[5], s, e, c - 1);
    assert text[c - 1..c][0] == text[c - 1];
  }

  /**
   * A text whose only separator character is one space at `p` (no newline,
   * period, exclamation or question mark anywhere), split with the production
   * separators: when the first window holds the space and `p + 1 - overlap`
   * is positive but not past `p`, the second window again holds that space
   * only, is cut at `p + 1` again, and the loop restarts from the same place
   * forever.
   */
  lemma SingleSpaceCycle(text: string, cfg: Settings, p: int)
    requires cfg.Valid() && cfg.separators == Separators
    requires 0 <= p < |text|
    requires forall i :: 0 <= i < |text| ==> (text[i] == ' ' <==> i == p)
    requires forall i :: 0 <= i < |text| ==> text[i] != '\n' && text[i] != '.' && text[i] != '!' && text[i] != '?'
    requires p + 1 <= cfg.chunkSize < |text|
    requires 0 < p + 1 - cfg.overlap <= p
    requires p + 1 - cfg.overlap + cfg.chunkSize < |text|
    ensures StartAt(text, cfg, 1) == p + 1 - cfg.overlap
    ensures StartAt(text, cfg, 2) == p + 1 - cfg.overlap
    ensures !SplitTerminates(text, cfg)
  {
    var s := p + 1 - cfg.overlap;
    WindowCutAfterSpace(text, cfg, p, 0);
    assert StartAt(text, cfg, 0) == 0;
    assert Cutter(text, cfg)(0) == p + 1;
    assert StartAt(text, cfg, 1) == s;
    WindowCutAfterSpace(text, cfg, p, s);
    assert Cutter(text, cfg)(s) == p + 1;
    assert StartAt(text, cfg, 2) == s;
    CycleNeverEnds(|text|, cfg, Cutter(text, cfg), 1, 1);
  }

  /**
   * The production settings (chunk size 1000, overlap 200) never finish on
   * 500 letters, one space and 3000 letters: the second and every later
   * window start at 301 and are cut at 501.
   */
  lemma OneSpaceDocumentNeverSplits()
    ensures var text := seq(500, i => 'a') + " " + seq(3000, i => 'b');
            && StartAt(text, Production, 1) == 301
            && StartAt(text, Production, 2) == 301
            && !SplitTerminates(text, Production)
  {
    var text := seq(500, i => 'a') + " " + seq(3000, i => 'b');
    assert |text| == 3501;
    forall i | 0 <= i < |text|
      ensures (text[i] == ' ' <==> i == 500)
      ensures text[i] != '\n' && text[i] != '.' && text[i] != '!' && text[i] != '?'
    {
      if i < 500 {
        assert text[i] == 'a';
      } else if i > 500 {
        assert text[i] == 'b';
      } else {
        assert text[i] == ' ';
      }
    }
    SingleSpaceCycle(text, Production, 500);
  }
}
