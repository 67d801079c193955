/**
 * Two-stage ("alpha"/"beta") inference orchestration of the vertical model:
 * the batch indexer that chunks the batch axis, the post-processing step that
 * either returns the alpha proposals, hands them to linear interpolation, or
 * refines them chunk by chunk with the beta model, and the rule that picks the
 * second stage when the model is constructed.
 */
module Viris {
  import opened Wrappers

  // ---------------------------------------------------------------------------
  // Batch index
  // ---------------------------------------------------------------------------

  /** One batch-index entry `[start, end, length]`.  `length` is what the
      source computes: `end` minus the already advanced cursor. */
  datatype Entry = Entry(start: int, end: int, length: int)

  function Min(a: int, b: int): int { if a <= b then a else b }

  /** The entry `get_new` returns when the cursor stands at `s`. */
  function EntryAt(bs: int, l: int, s: int): Entry {
    var e := if s + bs > l then l else s + bs;
    Entry(s, e, e - (s + bs))
  }

  /** The cursor after one call of `get_new` from `s`. */
  function Step(bs: int, l: int, s: int): int {
    if s >= l then s else s + bs
  }

  /** The cursor after `n` calls of `get_new` from a fresh (or re-initialised) index. */
  function CursorAfter(bs: int, l: int, n: nat): int {
    if n == 0 then 0 else Step(bs, l, CursorAfter(bs, l, n - 1))
  }

  /** The entries still to come while the cursor stands at `s`. */
  function ChunksFrom(bs: int, l: int, s: int): seq<Entry>
    requires bs > 0 || s >= l
    decreases l - s
  {
    if s >= l then [] else [EntryAt(bs, l, s)] + ChunksFrom(bs, l, s + bs)
  }

  /** The index a `BatchIndex(bs, l)` builds. */
  function Chunks(bs: int, l: int): seq<Entry>
    requires bs > 0 || l <= 0
  {
    ChunksFrom(bs, l, 0)
  }

  class BatchIndex {
    var bs: int
    var l: int
    var start: int
    var end: int
    var index: seq<Entry>

    /** Builds the whole index eagerly by calling `GetNew` until it yields
        nothing.  The loop terminates only when the chunk size is positive or
        there is nothing to index; see `NoProgressWithoutPositiveSize`. */
    constructor (batchSize: int, length: int)
      requires batchSize > 0 || length <= 0
      ensures bs == batchSize && l == length
      ensures index == Chunks(batchSize, length)
      ensures start == |index| * batchSize
      ensures end == if index == [] then 0 else length
    {
      bs, l := batchSize, length;
      start, end := 0, 0;
      index := [];
      new;
      Fill();
    }

    /** The constructor's `while (i := get_new()) is not None` loop: appends
        what `GetNew` yields until it yields nothing. */
    method Fill()
      modifies this
      requires Building(bs, l, start, end, index)
      ensures bs == old(bs) && l == old(l)
      ensures index == Chunks(bs, l)
      ensures start == |index| * bs
      ensures end == if index == [] then 0 else l
    {
      while true
        invariant bs == old(bs) && l == old(l)
        invariant Building(bs, l, start, end, index)
        decreases l - start
      {
        ghost var s, e0 := start, end;
        var i := GetNew();
        if i.None? {
          IndexDone(bs, l, s, end, index);
          break;
        }
        IndexStep(bs, l, s, e0, index);
        index := index + [i.value];
      }
    }

    /** Resets the cursor; the index built so far is kept. */
    method Init()
      modifies this
      ensures start == 0 && end == 0
      ensures bs == old(bs) && l == old(l) && index == old(index)
    {
      start := 0;
      end := 0;
    }

    /** Yields the next entry, or nothing once the cursor has reached `l`. */
    method GetNew() returns (r: Option<Entry>)
      modifies this
      ensures bs == old(bs) && l == old(l) && index == old(index)
      ensures start == Step(bs, l, old(start))
      ensures old(start) >= l ==> r == None && end == old(end)
      ensures old(start) < l ==> r == Some(EntryAt(bs, l, old(start))) && end == r.value.end
    {
      if start >= l {
        return None;
      }
      var s := start;
      end := start + bs;
      if end > l {
        end := l;
      }
      start := start + bs;
      r := Some(Entry(s, end, end - start));
    }
  }

  // ---------------------------------------------------------------------------
  // Properties of the index
  // ---------------------------------------------------------------------------

  /** The constructor's loop invariant: the cursor has advanced one chunk
      per entry built, the entries built followed by the ones still to come
      form the whole index, and `end` is the end of the last entry built. */
  predicate Building(bs: int, l: int, start: int, end: int, index: seq<Entry>) {
    && (bs > 0 || l <= 0)
    && (start < l ==> bs > 0)
    && start == |index| * bs
    && index + ChunksFrom(bs, l, start) == Chunks(bs, l)
    && end == if index == [] then 0 else Min(start, l)
  }

  /** Once the cursor reaches the length, the index is complete. */
  lemma IndexDone(bs: int, l: int, s: int, end: int, index: seq<Entry>)
    requires Building(bs, l, s, end, index) && s >= l
    ensures index == Chunks(bs, l)
    ensures end == if index == [] then 0 else l
  {
    assert ChunksFrom(bs, l, s) == [];
    assert index + [] == index;
  }

  /** One round of the constructor's loop keeps its invariant. */
  lemma IndexStep(bs: int, l: int, s: int, end: int, index: seq<Entry>)
    requires Building(bs, l, s, end, index) && s < l
    ensures Building(bs, l, s + bs, Min(s + bs, l), index + [EntryAt(bs, l, s)])
  {
    var e := EntryAt(bs, l, s);
    var rest := ChunksFrom(bs, l, s + bs);
    assert ChunksFrom(bs, l, s) == [e] + rest;
    Distribute(|index|, 1, bs);
    AppendAssoc(index, [e], rest);
  }

  /** With a chunk size of zero or less the cursor never reaches a positive
      length, so every call of `GetNew` yields an entry and the constructor's
      loop would not end. */
  lemma {:induction false} NoProgressWithoutPositiveSize(bs: int, l: int, n: nat)
    requires bs <= 0 < l
    ensures CursorAfter(bs, l, n) <= 0 < l
  {
    if n > 0 {
      NoProgressWithoutPositiveSize(bs, l, n - 1);
    }
  }

  lemma {:induction false} ChunksFromCount(bs: int, l: int, s: int)
    requires bs > 0
    ensures |ChunksFrom(bs, l, s)| == if s >= l then 0 else (l - s + bs - 1) / bs
    decreases l - s
  {
    if s < l {
      ChunksFromCount(bs, l, s + bs);
      if s + bs < l {
        DivShift(l - s - 1, bs);
      } else {
        DivOne(l - s + bs - 1, bs);
      }
    }
  }

  /** Division is determined by quotient and remainder. */
  lemma DivUnique(a: int, d: int, q: int, r: int)
    requires d > 0 && 0 <= r < d && a == q * d + r
    ensures a / d == q
  {
    var q0, r0 := a / d, a % d;
    assert q0 * d + r0 == a;
    if q > q0 {
      MulAtLeast(q - q0, d);
    } else if q < q0 {
      MulAtLeast(q0 - q, d);
    }
  }

  lemma MulAtLeast(k: int, d: int)
    requires k >= 1 && d > 0
    ensures k * d >= d
  {
  }

  lemma DivShift(x: int, d: int)
    requires d > 0
    ensures (x + d) / d == x / d + 1
  {
    assert x == (x / d) * d + x % d;
    assert x + d == (x / d + 1) * d + x % d;
    DivUnique(x + d, d, x / d + 1, x % d);
  }

  lemma DivOne(x: int, d: int)
    requires d > 0 && d <= x < 2 * d
    ensures x / d == 1
  {
    DivUnique(x, d, 1, x - d);
  }

  /** There are ceil(l / bs) entries, and none when l <= 0. */
  lemma ChunkCount(bs: int, l: int)
    requires bs > 0
    ensures |Chunks(bs, l)| == if l <= 0 then 0 else (l + bs - 1) / bs
  {
    ChunksFromCount(bs, l, 0);
  }

  lemma {:induction false} ChunksFromAt(bs: int, l: int, s: int, i: nat)
    requires bs > 0
    requires i < |ChunksFrom(bs, l, s)|
    ensures s + i * bs < l
    ensures ChunksFrom(bs, l, s)[i] == EntryAt(bs, l, s + i * bs)
    decreases i
  {
    if i > 0 {
      ChunksFromAt(bs, l, s + bs, i - 1);
      assert s + bs + (i - 1) * bs == s + i * bs;
    }
  }

  /** Entry i covers [i * bs, min((i + 1) * bs, l)); its third component is
      end - (start + bs). */
  lemma ChunkEntry(bs: int, l: int, i: nat)
    requires bs > 0
    requires i < |Chunks(bs, l)|
    ensures Chunks(bs, l)[i].start == i * bs < l
    ensures Chunks(bs, l)[i].end == Min((i + 1) * bs, l)
    ensures Chunks(bs, l)[i].length == Chunks(bs, l)[i].end - (i + 1) * bs
  {
    ChunksFromAt(bs, l, 0, i);
  }

  /** The index is empty exactly when l <= 0; otherwise the last entry is
      the one whose start is the last multiple of bs below l. */
  lemma ChunksLast(bs: int, l: int)
    requires bs > 0
    ensures (Chunks(bs, l) == []) <==> l <= 0
    ensures Chunks(bs, l) != [] ==>
      (|Chunks(bs, l)| - 1) * bs < l <= |Chunks(bs, l)| * bs
  {
    ChunkCount(bs, l);
    var n := |Chunks(bs, l)|;
    if l > 0 {
      DivAtLeastOne(l + bs - 1, bs);
      ChunkEntry(bs, l, n - 1);
      DivLowerBound(l + bs - 1, bs);
    }
  }

  lemma DivAtLeastOne(x: int, d: int)
    requires d > 0 && x >= d
    ensures x / d >= 1
  {
  }

  lemma DivLowerBound(x: int, d: int)
    requires d > 0
    ensures (x / d) * d >= x - d + 1
  {
    assert x == (x / d) * d + x % d;
  }

  lemma MulMono(a: int, b: int, d: int)
    requires a <= b && d > 0
    ensures a * d <= b * d
  {
    assert b * d - a * d == (b - a) * d;
  }

  /** An entry is never empty and never longer than bs; its third component
      is 0 exactly when the entry is a full chunk, and negative otherwise. */
  lemma EntryShape(bs: int, l: int, i: nat)
    requires bs > 0
    requires i < |Chunks(bs, l)|
    ensures var e := Chunks(bs, l)[i];
      && 0 < e.end - e.start <= bs
      && e.length <= 0
      && (e.length == 0 <==> e.end - e.start == bs)
  {
    ChunkEntry(bs, l, i);
    assert (i + 1) * bs == i * bs + bs;
  }

  /** Every entry but the last is a full chunk that ends where the next one
      starts. */
  lemma NextEntry(bs: int, l: int, i: nat)
    requires bs > 0
    requires i + 1 < |Chunks(bs, l)|
    ensures Chunks(bs, l)[i].end == Chunks(bs, l)[i + 1].start
    ensures Chunks(bs, l)[i].length == 0
  {
    ChunkEntry(bs, l, i);
    ChunkEntry(bs, l, i + 1);
  }

  /** The entries tile [0, l) from left to right: the first starts at 0, each
      starts where the previous ended, the last ends at l, and none is empty or
      longer than bs.  The third component is 0 for every full chunk and
      negative only for a short final one. */
  lemma ChunksTile(bs: int, l: int)
    requires bs > 0
    ensures var c := Chunks(bs, l);
      && (c == [] <==> l <= 0)
      && (c != [] ==> c[0].start == 0 && c[|c| - 1].end == l)
      && (forall i :: 0 <= i < |c| ==> 0 < c[i].end - c[i].start <= bs)
      && (forall i :: 0 <= i < |c| ==> c[i].length <= 0)
      && (forall i :: 0 <= i < |c| ==> (c[i].length == 0 <==> c[i].end - c[i].start == bs))
      && (forall i :: 0 <= i < |c| - 1 ==> c[i].end == c[i + 1].start && c[i].length == 0)
  {
    var c := Chunks(bs, l);
    ChunksLast(bs, l);
    if c != [] {
      ChunkEntry(bs, l, 0);
      ChunkEntry(bs, l, |c| - 1);
    }
    forall i | 0 <= i < |c|
      ensures 0 < c[i].end - c[i].start <= bs
      ensures c[i].length <= 0
      ensures c[i].length == 0 <==> c[i].end - c[i].start == bs
    {
      EntryShape(bs, l, i);
    }
    forall i | 0 <= i < |c| - 1
      ensures c[i].end == c[i + 1].start && c[i].length == 0
    {
      NextEntry(bs, l, i);
    }
  }

  /** The integers start, start + 1, ..., end - 1. */
  function Span(start: int, end: int): (r: seq<int>)
    ensures |r| == if start < end then end - start else 0
    ensures forall k :: 0 <= k < |r| ==> r[k] == start + k
  {
    if start < end then seq(end - start, k => start + k) else []
  }

  /** The positions the entries cover, in order. */
  function Covered(c: seq<Entry>): seq<int> {
    if c == [] then [] else Span(c[0].start, c[0].end) + Covered(c[1..])
  }

  lemma SpanSplit(a: int, b: int, c: int)
    requires a <= b <= c
    ensures Span(a, b) + Span(b, c) == Span(a, c)
  {
    var lhs := Span(a, b) + Span(b, c);
    assert |lhs| == |Span(a, c)|;
    forall k | 0 <= k < |lhs|
      ensures lhs[k] == Span(a, c)[k]
    {
      if k < |Span(a, b)| {
      } else {
        assert lhs[k] == Span(b, c)[k - (b - a)];
      }
    }
  }

  lemma {:induction false} CoveredFrom(bs: int, l: int, s: int)
    requires bs > 0
    ensures Covered(ChunksFrom(bs, l, s)) == Span(s, l)
    decreases l - s
  {
    if s < l {
      var c := ChunksFrom(bs, l, s);
      var e, rest := EntryAt(bs, l, s), ChunksFrom(bs, l, s + bs);
      assert c == [e] + rest;
      assert c[0] == e && c[1..] == rest;
      assert Covered(c) == Span(e.start, e.end) + Covered(rest);
      CoveredFrom(bs, l, s + bs);
      if s + bs < l {
        assert e.start == s && e.end == s + bs;
        SpanSplit(s, s + bs, l);
      } else {
        assert e.start == s && e.end == l;
        assert Span(s + bs, l) == [];
        assert Span(s, l) + [] == Span(s, l);
      }
    }
  }

  /** Concatenating the ranges [start, end) of all entries gives exactly
      0, 1, ..., l - 1: no gap, no overlap, no reordering. */
  lemma ChunksCover(bs: int, l: int)
    requires bs > 0
    ensures Covered(Chunks(bs, l)) == Span(0, l)
  {
    CoveredFrom(bs, l, 0);
  }

  lemma ChunksWithin(bs: int, l: int)
    requires bs > 0
    ensures EntriesWithin(Chunks(bs, l), l)
  {
    var c := Chunks(bs, l);
    forall i | 0 <= i < |c|
      ensures 0 <= c[i].start <= c[i].end <= l
    {
      ChunkEntry(bs, l, i);
    }
  }

  // ---------------------------------------------------------------------------
  // Tensors as sequences of rows
  // ---------------------------------------------------------------------------

  /** `tf.repeat(x, k, axis=0)`: each row of `x` repeated `k` times in a row. */
  function Repeat<T>(x: seq<T>, k: nat): (r: seq<T>)
    ensures |r| == |x| * k
  {
    if x == [] then [] else seq(k, _ => x[0]) + Repeat(x[1..], k)
  }

  /** Row j of a repeated tensor is row j div k of the original. */
  lemma {:induction false} RepeatAt<T>(x: seq<T>, k: nat, j: nat)
    requires j < |x| * k
    ensures k > 0 && j / k < |x| && Repeat(x, k)[j] == x[j / k]
    decreases |x|
  {
    var n := |x|;
    assert n > 0;
    var rest := Repeat(x[1..], k);
    assert |rest| == (n - 1) * k;
    assert n * k == (n - 1) * k + k;
    assert Repeat(x, k) == seq(k, _ => x[0]) + rest;
    if j < k {
      DivUnique(j, k, 0, j);
    } else {
      RepeatAt(x[1..], k, j - k);
      DivShift(j - k, k);
      assert j - k + k == j;
    }
  }

  /** `tf.reshape` of a `(batch, k, ...)` tensor to `(batch * k, ...)`. */
  function Flatten<T>(p: seq<seq<T>>): seq<T> {
    if p == [] then [] else p[0] + Flatten(p[1..])
  }

  /** `tf.reshape` of a `(batch * k, ...)` tensor back to `(batch, k, ...)`. */
  function Chop<T>(rows: seq<T>, k: nat, batch: nat): seq<seq<T>>
    requires |rows| == batch * k
  {
    if batch == 0 then [] else [rows[..k]] + Chop(rows[k..], k, batch - 1)
  }

  /** Reshaping to `(batch, k, ...)` fails unless there are batch * k rows. */
  function Reshape<T>(rows: seq<T>, k: nat, batch: nat): Option<seq<seq<T>>> {
    if |rows| == batch * k then Some(Chop(rows, k, batch)) else None
  }

  predicate Rows<T>(p: seq<seq<T>>, k: nat) {
    forall b :: 0 <= b < |p| ==> |p[b]| == k
  }

  /** Candidate c of agent b becomes flat row b * k + c. */
  lemma {:induction false} FlattenAt<T>(p: seq<seq<T>>, k: nat, b: nat, c: nat)
    requires Rows(p, k) && b < |p| && c < k
    ensures |Flatten(p)| == |p| * k
    ensures b * k + c < |Flatten(p)| && Flatten(p)[b * k + c] == p[b][c]
    decreases |p|
  {
    FlattenLength(p, k);
    if b > 0 {
      FlattenAt(p[1..], k, b - 1, c);
      assert (b - 1) * k + c + k == b * k + c;
    }
  }

  lemma {:induction false} FlattenLength<T>(p: seq<seq<T>>, k: nat)
    requires Rows(p, k)
    ensures |Flatten(p)| == |p| * k
    decreases |p|
  {
    if p != [] {
      FlattenLength(p[1..], k);
    }
  }

  /** Row c of reshaped group b is flat row b * k + c. */
  lemma {:induction false} ChopAt<T>(rows: seq<T>, k: nat, batch: nat, b: nat, c: nat)
    requires |rows| == batch * k && b < batch && c < k
    ensures |Chop(rows, k, batch)| == batch && Rows(Chop(rows, k, batch), k)
    ensures b * k + c < |rows| && Chop(rows, k, batch)[b][c] == rows[b * k + c]
    decreases batch
  {
    ChopShape(rows, k, batch);
    if b > 0 {
      ChopAt(rows[k..], k, batch - 1, b - 1, c);
      assert (b - 1) * k + c + k == b * k + c;
    }
  }

  lemma {:induction false} ChopShape<T>(rows: seq<T>, k: nat, batch: nat)
    requires |rows| == batch * k
    ensures |Chop(rows, k, batch)| == batch && Rows(Chop(rows, k, batch), k)
    decreases batch
  {
    if batch > 0 {
      ChopShape(rows[k..], k, batch - 1);
    }
  }

  /** Reshaping `(batch * k, ...)` to `(batch, k, ...)` and back is the
      identity, both ways round. */
  lemma {:induction false} FlattenChop<T>(rows: seq<T>, k: nat, batch: nat)
    requires |rows| == batch * k
    ensures Flatten(Chop(rows, k, batch)) == rows
    decreases batch
  {
    if batch > 0 {
      FlattenChop(rows[k..], k, batch - 1);
    }
  }

  lemma {:induction false} ChopFlatten<T>(p: seq<seq<T>>, k: nat)
    requires Rows(p, k)
    ensures |Flatten(p)| == |p| * k && Chop(Flatten(p), k, |p|) == p
    decreases |p|
  {
    FlattenLength(p, k);
    if p != [] {
      ChopFlatten(p[1..], k);
      assert Flatten(p)[..k] == p[0];
      assert Flatten(p)[k..] == Flatten(p[1..]);
    }
  }

  // ---------------------------------------------------------------------------
  // Post-processing
  // ---------------------------------------------------------------------------

  /** The inputs handed to the beta model: the observed trajectories, the
      other context inputs (maps, map parameters), and the proposal rows. */
  datatype BetaInput<P, C> = BetaInput(trajs: seq<seq<P>>, extra: seq<seq<C>>, proposals: seq<seq<P>>)

  predicate EntriesWithin(entries: seq<Entry>, n: int) {
    forall i :: 0 <= i < |entries| ==> 0 <= entries[i].start <= entries[i].end <= n
  }

  /** Every context input has one row per agent. */
  predicate ContextShape<P, C>(trajs: seq<seq<P>>, extra: seq<seq<C>>, batch: nat) {
    |trajs| == batch && forall i :: 0 <= i < |extra| ==> |extra[i]| == batch
  }

  /** The beta input for the chunk of agents [s, e): each context row of the
      chunk repeated kc times, with proposal rows [s * kc, e * kc). */
  function ChunkInput<P, C>(trajs: seq<seq<P>>, extra: seq<seq<C>>, flat: seq<seq<P>>,
                            kc: nat, s: int, e: int): (x: BetaInput<P, C>)
    requires ContextShape(trajs, extra, |trajs|) && |flat| == |trajs| * kc
    requires 0 <= s <= e <= |trajs|
    ensures WellShaped(x) && |x.proposals| == (e - s) * kc
  {
    ChunkBounds(s, e, |trajs|, kc);
    BetaInput(Repeat(trajs[s..e], kc),
              seq(|extra|, i requires 0 <= i < |extra| => Repeat(extra[i][s..e], kc)),
              flat[s * kc .. e * kc])
  }

  lemma ChunkBounds(s: int, e: int, n: int, kc: nat)
    requires 0 <= s <= e <= n
    ensures 0 <= s * kc <= e * kc <= n * kc
    ensures e * kc - s * kc == (e - s) * kc
  {
    MulMono(s, e, kc + 1);
    MulMono(e, n, kc + 1);
    assert (e - s) * kc >= 0;
    assert (n - e) * kc >= 0;
  }

  /** Inside a chunk [s, e), beta row j pairs agent s + j div kc with proposal
      row s * kc + j, which is candidate j mod kc of that agent. */
  lemma ChunkPairing<P, C>(trajs: seq<seq<P>>, extra: seq<seq<C>>, proposals: seq<seq<seq<P>>>,
                           kc: nat, s: int, e: int, j: nat)
    requires Rows(proposals, kc) && ContextShape(trajs, extra, |proposals|)
    requires 0 <= s <= e <= |trajs|
    requires j < (e - s) * kc
    ensures |Flatten(proposals)| == |trajs| * kc
    ensures var x := ChunkInput(trajs, extra, Flatten(proposals), kc, s, e);
      && kc > 0 && s + j / kc < e
      && x.trajs[j] == trajs[s + j / kc]
      && (forall i :: 0 <= i < |extra| ==> x.extra[i][j] == extra[i][s + j / kc])
      && x.proposals[j] == proposals[s + j / kc][j % kc]
  {
    FlattenLength(proposals, kc);
    var flat := Flatten(proposals);
    var x := ChunkInput(trajs, extra, flat, kc, s, e);
    var b, c := s + j / kc, j % kc;
    ChunkRowAt(trajs, extra, flat, kc, s, e, j);
    DivModSplit(s, j, kc);
    DivNonNeg(j, kc);
    FlattenAt(proposals, kc, b, c);
  }

  lemma ChunkRowAt<P, C>(trajs: seq<seq<P>>, extra: seq<seq<C>>, flat: seq<seq<P>>,
                         kc: nat, s: int, e: int, j: nat)
    requires ContextShape(trajs, extra, |trajs|) && |flat| == |trajs| * kc
    requires 0 <= s <= e <= |trajs|
    requires j < (e - s) * kc
    ensures var x := ChunkInput(trajs, extra, flat, kc, s, e);
      && kc > 0 && s + j / kc < e && s * kc + j < |flat|
      && x.trajs[j] == trajs[s + j / kc]
      && (forall i :: 0 <= i < |extra| ==> x.extra[i][j] == extra[i][s + j / kc])
      && x.proposals[j] == flat[s * kc + j]
  {
    var x := ChunkInput(trajs, extra, flat, kc, s, e);
    ChunkBounds(s, e, |trajs|, kc);
    RepeatSliceAt(trajs, kc, s, e, j);
    forall i | 0 <= i < |extra|
      ensures x.extra[i][j] == extra[i][s + j / kc]
    {
      RepeatSliceAt(extra[i], kc, s, e, j);
    }
  }

  lemma RepeatSliceAt<T>(x: seq<T>, kc: nat, s: int, e: int, j: nat)
    requires 0 <= s <= e <= |x| && j < (e - s) * kc
    ensures kc > 0 && s + j / kc < e && Repeat(x[s..e], kc)[j] == x[s + j / kc]
  {
    RepeatAt(x[s..e], kc, j);
  }


  lemma DivModSplit(s: int, j: int, d: int)
    requires d > 0
    ensures s * d + j == (s + j / d) * d + j % d
  {
    var q := j / d;
    assert j == q * d + j % d;
    Distribute(s, q, d);
  }

  lemma DivNonNeg(j: int, d: int)
    requires j >= 0 && d > 0
    ensures j / d >= 0 && 0 <= j % d < d
  {
  }

  lemma Distribute(a: int, b: int, d: int)
    ensures (a + b) * d == a * d + b * d
  {
  }

  lemma DivBelow(j: int, d: int, n: int)
    requires d > 0 && 0 <= j < n * d
    ensures j / d < n
  {
    if j / d >= n {
      MulMono(n, j / d, d);
    }
  }

  /** Results of the chunks in `entries`, concatenated in chunk order. */
  function Refined<P, C>(entries: seq<Entry>, trajs: seq<seq<P>>, extra: seq<seq<C>>,
                         flat: seq<seq<P>>, kc: nat,
                         beta: BetaInput<P, C> -> seq<seq<P>>): seq<seq<P>>
    requires ContextShape(trajs, extra, |trajs|) && |flat| == |trajs| * kc
    requires EntriesWithin(entries, |trajs|)
  {
    if entries == [] then []
    else
      var last := entries[|entries| - 1];
      Refined(entries[..|entries| - 1], trajs, extra, flat, kc, beta)
        + beta(ChunkInput(trajs, extra, flat, kc, last.start, last.end))
  }

  /** The last observed position of every agent put in front of each of its
      proposals, as the first knot of the interpolation. */
  function Anchored<P>(proposals: seq<seq<seq<P>>>, trajs: seq<seq<P>>): (r: seq<seq<seq<P>>>)
    requires |trajs| == |proposals| && forall b :: 0 <= b < |trajs| ==> |trajs[b]| > 0
  {
    seq(|proposals|, b requires 0 <= b < |proposals| =>
      seq(|proposals[b]|, k requires 0 <= k < |proposals[b]| =>
        [trajs[b][|trajs[b]| - 1]] + proposals[b][k]))
  }

  /** The knot indices of the interpolation: -1 for the anchor, then p_index. */
  function Knots(pIndex: seq<int>): seq<real> {
    [-1.0] + seq(|pIndex|, i requires 0 <= i < |pIndex| => pIndex[i] as real)
  }

  /** What `post_process` demands of its inputs in each branch. */
  predicate PostProcessReady<P, C>(proposals: seq<seq<seq<P>>>, kc: nat, trajs: seq<seq<P>>,
                                   extra: seq<seq<C>>, training: bool, linear: bool,
                                   maxBatchSize: int) {
    && Rows(proposals, kc)
    && (!training && linear ==>
          |trajs| == |proposals| && forall b :: 0 <= b < |trajs| ==> |trajs[b]| > 0)
    && (!training && !linear ==>
          kc > 0 && (maxBatchSize / kc > 0 || |proposals| == 0)
          && ContextShape(trajs, extra, |proposals|))
  }

  /** The value `post_process` returns.  `None` stands for a failing
      TensorFlow call: `tf.concat` of an empty list of chunk results (an
      empty batch, or no chunk at all), or the final reshape. */
  function PostProcessSpec<P, C>(proposals: seq<seq<seq<P>>>, kc: nat, trajs: seq<seq<P>>,
                                 extra: seq<seq<C>>, training: bool, linear: bool,
                                 pIndex: seq<int>, maxBatchSize: int,
                                 interp: (seq<real>, seq<seq<seq<P>>>) -> seq<seq<seq<P>>>,
                                 beta: BetaInput<P, C> -> seq<seq<P>>): Option<seq<seq<seq<P>>>>
    requires PostProcessReady(proposals, kc, trajs, extra, training, linear, maxBatchSize)
  {
    if training then Some(proposals)
    else if linear then Some(interp(Knots(pIndex), Anchored(proposals, trajs)))
    else
      var bs := maxBatchSize / kc;
      FlattenLength(proposals, kc);
      assert EntriesWithin(Chunks(bs, |proposals|), |proposals|) by {
        if |proposals| > 0 { ChunksWithin(bs, |proposals|); }
      }
      if Chunks(bs, |proposals|) == [] then None
      else
        Reshape(Refined(Chunks(bs, |proposals|), trajs, extra, Flatten(proposals), kc, beta),
                kc, |proposals|)
  }

  /** `_VIrisAlphaModelPlus.post_process` after the alpha model has produced
      `proposals` (batch x kc x n keypoints).  The beta model, the linear
      interpolation and the inputs are the caller's; the chunk loop is the
      source's. */
  method PostProcess<P, C>(proposals: seq<seq<seq<P>>>, kc: nat, trajs: seq<seq<P>>,
                           extra: seq<seq<C>>, training: bool, linear: bool,
                           pIndex: seq<int>, maxBatchSize: int,
                           interp: (seq<real>, seq<seq<seq<P>>>) -> seq<seq<seq<P>>>,
                           beta: BetaInput<P, C> -> seq<seq<P>>)
    returns (r: Option<seq<seq<seq<P>>>>)
    requires PostProcessReady(proposals, kc, trajs, extra, training, linear, maxBatchSize)
    ensures r == PostProcessSpec(proposals, kc, trajs, extra, training, linear, pIndex,
                                 maxBatchSize, interp, beta)
  {
    if training {
      return Some(proposals);
    }
    if linear {
      return Some(interp(Knots(pIndex), Anchored(proposals, trajs)));
    }
    var batch := |proposals|;
    var bs := maxBatchSize / kc;
    var batchIndex := new BatchIndex(bs, batch);
    FlattenLength(proposals, kc);
    var flat := Flatten(proposals);
    if batch > 0 {
      ChunksWithin(bs, batch);
    }
    var entries := batchIndex.index;
    var results: seq<seq<P>> := [];
    var i := 0;
    while i < |entries|
      invariant 0 <= i <= |entries|
      invariant results == Refined(entries[..i], trajs, extra, flat, kc, beta)
    {
      var entry := entries[i];
      assert entries[..i + 1][..i] == entries[..i] && entries[..i + 1][i] == entry;
      RefinedLast(entries[..i + 1], trajs, extra, flat, kc, beta);
      results := results + beta(ChunkInput(trajs, extra, flat, kc, entry.start, entry.end));
      i := i + 1;
    }
    assert entries[..i] == entries;
    if |entries| == 0 {
      // `tf.concat` refuses an empty list of tensors.
      return None;
    }
    r := Reshape(results, kc, batch);
  }

  // ---------------------------------------------------------------------------
  // Chunking preserves meaning for a row-wise beta model
  // ---------------------------------------------------------------------------

  /** Column j of the other context inputs: the row each of them holds for one agent. */
  function Column<C>(extra: seq<seq<C>>, j: nat): seq<C>
    requires forall i :: 0 <= i < |extra| ==> j < |extra[i]|
  {
    seq(|extra|, i requires 0 <= i < |extra| => extra[i][j])
  }

  predicate WellShaped<P, C>(x: BetaInput<P, C>) {
    |x.trajs| == |x.proposals| && forall i :: 0 <= i < |x.extra| ==> |x.extra[i]| == |x.proposals|
  }

  /** `f` applied to every row of a beta input on its own. */
  function RowApply<P, C>(f: (seq<P>, seq<C>, seq<P>) -> seq<P>, x: BetaInput<P, C>): seq<seq<P>>
    requires WellShaped(x)
  {
    seq(|x.proposals|, j requires 0 <= j < |x.proposals| =>
      f(x.trajs[j], Column(x.extra, j), x.proposals[j]))
  }

  /** A beta model that computes each output row from its input row alone. */
  ghost predicate RowWise<P(!new), C(!new)>(beta: BetaInput<P, C> -> seq<seq<P>>,
                                f: (seq<P>, seq<C>, seq<P>) -> seq<P>) {
    forall x: BetaInput<P, C> :: WellShaped(x) ==> beta(x) == RowApply(f, x)
  }

  /** The beta input without chunking: every context row repeated kc times,
      next to all batch * kc proposal rows. */
  function Unchunked<P, C>(trajs: seq<seq<P>>, extra: seq<seq<C>>, flat: seq<seq<P>>,
                           kc: nat): (x: BetaInput<P, C>)
    requires ContextShape(trajs, extra, |trajs|) && |flat| == |trajs| * kc
    ensures WellShaped(x)
  {
    BetaInput(Repeat(trajs, kc),
              seq(|extra|, i requires 0 <= i < |extra| => Repeat(extra[i], kc)),
              flat)
  }

  /** One chunk's output is a slice of the output of the unchunked call. */
  lemma ChunkIsSlice<P(!new), C(!new)>(trajs: seq<seq<P>>, extra: seq<seq<C>>, flat: seq<seq<P>>,
                           kc: nat, s: int, e: int,
                           beta: BetaInput<P, C> -> seq<seq<P>>,
                           f: (seq<P>, seq<C>, seq<P>) -> seq<P>)
    requires ContextShape(trajs, extra, |trajs|) && |flat| == |trajs| * kc
    requires 0 <= s <= e <= |trajs|
    requires RowWise(beta, f)
    ensures s * kc <= e * kc <= |trajs| * kc
    ensures beta(ChunkInput(trajs, extra, flat, kc, s, e))
            == beta(Unchunked(trajs, extra, flat, kc))[s * kc .. e * kc]
  {
    var x := ChunkInput(trajs, extra, flat, kc, s, e);
    var w := Unchunked(trajs, extra, flat, kc);
    ChunkBounds(s, e, |trajs|, kc);
    assert beta(x) == RowApply(f, x);
    assert beta(w) == RowApply(f, w);
    var lhs, rhs := RowApply(f, x), RowApply(f, w)[s * kc .. e * kc];
    assert |lhs| == |rhs|;
    forall j | 0 <= j < |lhs|
      ensures lhs[j] == rhs[j]
    {
      ChunkRowAt(trajs, extra, flat, kc, s, e, j);
      UnchunkedRowAt(trajs, extra, flat, kc, s * kc + j);
      DivModSplit(s, j, kc);
      DivUnique(s * kc + j, kc, s + j / kc, j % kc);
      assert Column(x.extra, j) == Column(w.extra, s * kc + j);
      assert rhs[j] == RowApply(f, w)[s * kc + j];
    }
  }

  /** Row J of the unchunked input belongs to agent J div kc. */
  lemma UnchunkedRowAt<P, C>(trajs: seq<seq<P>>, extra: seq<seq<C>>, flat: seq<seq<P>>,
                             kc: nat, jj: nat)
    requires ContextShape(trajs, extra, |trajs|) && |flat| == |trajs| * kc
    requires jj < |trajs| * kc
    ensures var w := Unchunked(trajs, extra, flat, kc);
      && kc > 0 && jj / kc < |trajs|
      && w.trajs[jj] == trajs[jj / kc]
      && (forall i :: 0 <= i < |extra| ==> w.extra[i][jj] == extra[i][jj / kc])
      && w.proposals[jj] == flat[jj]
  {
    var w := Unchunked(trajs, extra, flat, kc);
    DivBelow(jj, kc, |trajs|);
    RepeatAt(trajs, kc, jj);
    forall i | 0 <= i < |extra|
      ensures w.extra[i][jj] == extra[i][jj / kc]
    {
      RepeatAt(extra[i], kc, jj);
    }
  }

  /** Concatenating the chunk outputs of the first m entries gives the first
      rows of the unchunked output, up to where entry m - 1 ends. */
  lemma {:induction false} RefinedPrefix<P(!new), C(!new)>(trajs: seq<seq<P>>, extra: seq<seq<C>>,
                                               flat: seq<seq<P>>, kc: nat, bs: int, m: nat,
                                               beta: BetaInput<P, C> -> seq<seq<P>>,
                                               f: (seq<P>, seq<C>, seq<P>) -> seq<P>)
    requires ContextShape(trajs, extra, |trajs|) && |flat| == |trajs| * kc
    requires bs > 0 && m <= |Chunks(bs, |trajs|)|
    requires RowWise(beta, f)
    ensures EntriesWithin(Chunks(bs, |trajs|)[..m], |trajs|)
    ensures var upTo := if m == 0 then 0 else Chunks(bs, |trajs|)[m - 1].end;
      0 <= upTo * kc <= |trajs| * kc
      && Refined(Chunks(bs, |trajs|)[..m], trajs, extra, flat, kc, beta)
         == beta(Unchunked(trajs, extra, flat, kc))[.. upTo * kc]
  {
    var c := Chunks(bs, |trajs|);
    ChunksWithin(bs, |trajs|);
    assert EntriesWithin(c[..m], |trajs|);
    var whole := beta(Unchunked(trajs, extra, flat, kc));
    if m > 0 {
      ChunksTile(bs, |trajs|);
      var e := c[m - 1];
      var prev := if m - 1 == 0 then 0 else c[m - 2].end;
      RefinedPrefix(trajs, extra, flat, kc, bs, m - 1, beta, f);
      assert e.start == prev;
      assert c[..m][..m - 1] == c[..m - 1] && c[..m][m - 1] == e;
      RefinedLast(c[..m], trajs, extra, flat, kc, beta);
      ChunkIsSlice(trajs, extra, flat, kc, e.start, e.end, beta, f);
      SliceJoin(whole, prev * kc, e.end * kc);
    }
  }

  /** The outputs of a non-empty entry list end with the output of its last entry. */
  lemma RefinedLast<P, C>(entries: seq<Entry>, trajs: seq<seq<P>>, extra: seq<seq<C>>,
                          flat: seq<seq<P>>, kc: nat, beta: BetaInput<P, C> -> seq<seq<P>>)
    requires ContextShape(trajs, extra, |trajs|) && |flat| == |trajs| * kc
    requires EntriesWithin(entries, |trajs|) && entries != []
    ensures EntriesWithin(entries[..|entries| - 1], |trajs|)
    ensures var last := entries[|entries| - 1];
      Refined(entries, trajs, extra, flat, kc, beta)
      == Refined(entries[..|entries| - 1], trajs, extra, flat, kc, beta)
         + beta(ChunkInput(trajs, extra, flat, kc, last.start, last.end))
  {
  }

  lemma SliceJoin<T>(s: seq<T>, x: int, y: int)
    requires 0 <= x <= y <= |s|
    ensures s[..x] + s[x..y] == s[..y]
  {
  }

  /** All chunk outputs together are the output of one unchunked call. */
  lemma RefinedWhole<P(!new), C(!new)>(trajs: seq<seq<P>>, extra: seq<seq<C>>,
                                       flat: seq<seq<P>>, kc: nat, bs: int,
                                       beta: BetaInput<P, C> -> seq<seq<P>>,
                                       f: (seq<P>, seq<C>, seq<P>) -> seq<P>)
    requires ContextShape(trajs, extra, |trajs|) && |flat| == |trajs| * kc
    requires bs > 0 && RowWise(beta, f)
    ensures EntriesWithin(Chunks(bs, |trajs|), |trajs|)
    ensures Refined(Chunks(bs, |trajs|), trajs, extra, flat, kc, beta)
            == RowApply(f, Unchunked(trajs, extra, flat, kc))
  {
    var c := Chunks(bs, |trajs|);
    ChunksWithin(bs, |trajs|);
    var w := Unchunked(trajs, extra, flat, kc);
    assert beta(w) == RowApply(f, w);
    if |trajs| == 0 {
      assert c == [];
    } else {
      ChunksTile(bs, |trajs|);
      RefinedPrefix(trajs, extra, flat, kc, bs, |c|, beta, f);
      assert c[..|c|] == c;
    }
  }

  /** Row b * kc + k of the unchunked output is candidate k of agent b. */
  lemma UnchunkedOutputAt<P, C>(proposals: seq<seq<seq<P>>>, kc: nat, trajs: seq<seq<P>>,
                                extra: seq<seq<C>>, f: (seq<P>, seq<C>, seq<P>) -> seq<P>,
                                b: nat, k: nat)
    requires Rows(proposals, kc) && ContextShape(trajs, extra, |proposals|)
    requires b < |proposals| && k < kc
    ensures |Flatten(proposals)| == |trajs| * kc
    ensures var out := RowApply(f, Unchunked(trajs, extra, Flatten(proposals), kc));
      b * kc + k < |out| && out[b * kc + k] == f(trajs[b], Column(extra, b), proposals[b][k])
  {
    FlattenAt(proposals, kc, b, k);
    var w := Unchunked(trajs, extra, Flatten(proposals), kc);
    UnchunkedRowAt(trajs, extra, Flatten(proposals), kc, b * kc + k);
    DivUnique(b * kc + k, kc, b, k);
    assert Column(w.extra, b * kc + k) == Column(extra, b);
  }

  /** Chunking is a pure performance transform: for a row-wise beta model and
      a non-empty batch the refined output equals one unchunked call, and
      candidate k of agent b is computed from agent b's own context and its
      own k-th proposal.  An empty batch leaves nothing to concatenate, and
      the refinement fails. */
  lemma RefinementPreservesOrder<P(!new), C(!new)>(proposals: seq<seq<seq<P>>>, kc: nat, trajs: seq<seq<P>>,
                                       extra: seq<seq<C>>, pIndex: seq<int>, maxBatchSize: int,
                                       interp: (seq<real>, seq<seq<seq<P>>>) -> seq<seq<seq<P>>>,
                                       beta: BetaInput<P, C> -> seq<seq<P>>,
                                       f: (seq<P>, seq<C>, seq<P>) -> seq<P>)
    requires PostProcessReady(proposals, kc, trajs, extra, false, false, maxBatchSize)
    requires RowWise(beta, f)
    ensures var r := PostProcessSpec(proposals, kc, trajs, extra, false, false, pIndex,
                                     maxBatchSize, interp, beta);
      && (r.Some? <==> |proposals| > 0)
      && (r.Some? ==> |r.value| == |proposals|)
      && (r.Some? ==> forall b :: 0 <= b < |proposals| ==> |r.value[b]| == kc)
      && (r.Some? ==> forall b, k :: 0 <= b < |proposals| && 0 <= k < kc ==>
            r.value[b][k] == f(trajs[b], Column(extra, b), proposals[b][k]))
  {
    var batch := |proposals|;
    var bs := maxBatchSize / kc;
    FlattenLength(proposals, kc);
    var flat := Flatten(proposals);
    var out := RowApply(f, Unchunked(trajs, extra, flat, kc));
    if batch == 0 {
      assert Chunks(bs, batch) == [];
      return;
    }
    RefinedWhole(trajs, extra, flat, kc, bs, beta, f);
    ChunkCount(bs, batch);
    var r := PostProcessSpec(proposals, kc, trajs, extra, false, false, pIndex,
                             maxBatchSize, interp, beta);
    assert r == Some(Chop(out, kc, batch));
    ChopShape(out, kc, batch);
    forall b, k | 0 <= b < batch && 0 <= k < kc
      ensures r.value[b][k] == f(trajs[b], Column(extra, b), proposals[b][k])
    {
      ChopAt(out, kc, batch, b, k);
      UnchunkedOutputAt(proposals, kc, trajs, extra, f, b, k);
    }
  }

  /** In training mode the proposals come back unchanged; in linear mode the
      interpolation gets -1 followed by p_index as knots, and every proposal
      with its agent's last observed position in front. */
  lemma OtherBranches<P, C>(proposals: seq<seq<seq<P>>>, kc: nat, trajs: seq<seq<P>>,
                            extra: seq<seq<C>>, linear: bool, pIndex: seq<int>, maxBatchSize: int,
                            interp: (seq<real>, seq<seq<seq<P>>>) -> seq<seq<seq<P>>>,
                            beta: BetaInput<P, C> -> seq<seq<P>>)
    requires PostProcessReady(proposals, kc, trajs, extra, true, linear, maxBatchSize)
    requires PostProcessReady(proposals, kc, trajs, extra, false, true, maxBatchSize)
    ensures PostProcessSpec(proposals, kc, trajs, extra, true, linear, pIndex, maxBatchSize,
                            interp, beta) == Some(proposals)
    ensures var knots := Knots(pIndex);
      var anchored := Anchored(proposals, trajs);
      && PostProcessSpec(proposals, kc, trajs, extra, false, true, pIndex, maxBatchSize,
                         interp, beta) == Some(interp(knots, anchored))
      && |knots| == |pIndex| + 1 && knots[0] == -1.0
      && (forall i :: 0 <= i < |pIndex| ==> knots[i + 1] == pIndex[i] as real)
      && |anchored| == |proposals|
      && (forall b :: 0 <= b < |proposals| ==> |anchored[b]| == kc)
      && (forall b, k :: 0 <= b < |proposals| && 0 <= k < kc ==>
            anchored[b][k] == [trajs[b][|trajs[b]| - 1]] + proposals[b][k])
  {
  }

  // ---------------------------------------------------------------------------
  // Choice of the second stage
  // ---------------------------------------------------------------------------

  /** Outcome of `VIris.__init__`'s checks on the `loada` / `loadb` paths. */
  datatype SecondStage = MissingModel | LinearStage | BetaModel

  predicate StartsWith(s: string, prefix: string) {
    |prefix| <= |s| && s[..|prefix|] == prefix
  }

  /** Construction fails when either path is `null`; otherwise the beta model
      is replaced by linear interpolation exactly when `loadb` starts with `l`. */
  function ChooseSecondStage(loada: string, loadb: string): (m: SecondStage)
    ensures m == MissingModel <==> (loada == "null" || loadb == "null")
    ensures m == LinearStage <==> (loada != "null" && loadb != "null" && |loadb| > 0 && loadb[0] == 'l')
    ensures m == BetaModel <==> (loada != "null" && loadb != "null" && !StartsWith(loadb, "l"))
  {
    if "null" in [loada, loadb] then MissingModel
    else if StartsWith(loadb, "l") then LinearStage
    else BetaModel
  }
}
