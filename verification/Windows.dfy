/** Overlapping extraction windows. */
module Windows {

  /** Where window `k` starts, and where it ends in a transcript of `n` segments. */
  function Start(k: nat, size: nat, overlap: nat): int {
    k * (size - overlap)
  }

  function End(k: nat, size: nat, overlap: nat, n: nat): int {
    if Start(k, size, overlap) + size < n then Start(k, size, overlap) + size else n
  }

  /** How many windows a transcript takes: one, plus one for each further step, rounded up. */
  function Count(n: nat, size: nat, overlap: nat): nat
    requires size > overlap
  {
    var step := size - overlap;
    if n <= size then 1 else 1 + (n - size + step - 1) / step
  }

  /** Windows are slices at a fixed stride; only the last reaches the end. */
  ghost predicate AreWindows<T>(segments: seq<T>, size: nat, overlap: nat, windows: seq<seq<T>>)
    requires size > overlap
  {
    forall k :: 0 <= k < |windows| ==>
      && 0 <= Start(k, size, overlap) <= End(k, size, overlap, |segments|) <= |segments|
      && windows[k] == segments[Start(k, size, overlap)..End(k, size, overlap, |segments|)]
  }

  /** Segments `from` up to `to` lie whole in one of the windows. */
  ghost predicate Inside(from: int, to: int, n: nat, size: nat, overlap: nat, count: nat) {
    exists k: nat :: k < count && Start(k, size, overlap) <= from && to <= End(k, size, overlap, n)
  }

  method SplitWindows<T>(segments: seq<T>, size: nat, overlap: nat) returns (windows: seq<seq<T>>)
    requires size > overlap
    ensures AreWindows(segments, size, overlap, windows)
    ensures |windows| == Count(|segments|, size, overlap)
    ensures forall k :: 0 <= k < |windows| ==> |windows[k]| <= size
    ensures forall from, to :: 0 <= from < to <= |segments| && to <= from + overlap + 1 ==>
              Inside(from, to, |segments|, size, overlap, |windows|)
  {
    var n := |segments|;
    if n <= size {
      windows := [segments];
      assert Start(0, size, overlap) == 0 && segments[0..n] == segments;
      EveryRunIsInside(n, size, overlap, 1);
      return;
    }
    windows := [];
    var step := size - overlap;
    var start := 0;
    while start < n
      invariant start == Start(|windows|, size, overlap) < n
      invariant |windows| > 0 ==> start - step + size < n
      invariant AreWindows(segments, size, overlap, windows)
      decreases n - start
    {
      var end := if start + size < n then start + size else n;
      windows := windows + [segments[start..end]];
      if start + size >= n { break; }
      NextStart(|windows| - 1, size, overlap);
      start := start + step;
    }
    assert |windows| == Count(n, size, overlap) by {
      CountIs(|windows| - 1, n, size, overlap);
    }
    EveryRunIsInside(n, size, overlap, |windows|);
  }

  lemma NextStart(k: nat, size: nat, overlap: nat)
    ensures Start(k + 1, size, overlap) == Start(k, size, overlap) + (size - overlap)
  {
  }

  /** The last window is the first one that reaches the end. */
  lemma CountIs(k: nat, n: nat, size: nat, overlap: nat)
    requires size > overlap && n > size
    requires Start(k, size, overlap) + size >= n
    requires k > 0 ==> Start(k, size, overlap) - (size - overlap) + size < n
    ensures Count(n, size, overlap) == k + 1
  {
    var step := size - overlap;
    var x := n - size + step - 1;
    assert k * step <= x < (k + 1) * step by {
      assert (k + 1) * step == k * step + step;
    }
    Quotient(x, step, k);
  }

  lemma Quotient(x: int, d: int, q: int)
    requires d > 0 && q * d <= x < (q + 1) * d
    ensures x / d == q
  {
    Monotone(x / d + 1, q, d);
    Monotone(q + 1, x / d, d);
  }

  lemma Monotone(a: int, b: int, d: nat)
    ensures a <= b ==> a * d <= b * d
  {
  }

  /** Any run of overlap + 1 segments, and so any single one, fits in a window. */
  lemma EveryRunIsInside(n: nat, size: nat, overlap: nat, count: nat)
    requires size > overlap && count > 0
    requires End(count - 1, size, overlap, n) == n && Start(count - 1, size, overlap) <= n
    ensures forall from, to :: 0 <= from < to <= n && to <= from + overlap + 1 ==>
              Inside(from, to, n, size, overlap, count)
  {
    forall from, to | 0 <= from < to <= n && to <= from + overlap + 1
      ensures Inside(from, to, n, size, overlap, count) {
      var step := size - overlap;
      var k := from / step;
      assert k * step <= from < k * step + step;
      if k < count {
        assert Start(k, size, overlap) <= from && to <= End(k, size, overlap, n);
      } else {
        assert (count - 1) * step <= k * step;
        assert Start(count - 1, size, overlap) <= from;
      }
    }
  }
}
