/** `_beeswarm(y, width)` of fleur/_utils/beeswarm.py: horizontal offsets
    that spread the points of each y-bin alternately right and left.
    Values are `real`s and the bin edges that `np.histogram` would return
    are an input. */
module Beeswarm {
  import opened Errors

  // ---------------------------------------------------------------------
  // Bins

  /** `nbins = int(np.ceil(len(y) / 6))`. */
  function NumBins(n: nat): (b: nat)
    ensures 6 * b >= n
    ensures b > 0 ==> 6 * (b - 1) < n
  {
    (n + 5) / 6
  }

  predicate StrictlyIncreasing(edges: seq<real>) {
    forall k :: 0 <= k < |edges| - 1 ==> edges[k] < edges[k + 1]
  }

  lemma {:induction false} IncreasingPairwise(edges: seq<real>, i: nat, j: nat)
    requires StrictlyIncreasing(edges)
    requires i < j < |edges|
    ensures edges[i] < edges[j]
  {
    if i + 1 < j {
      IncreasingPairwise(edges, i, j - 1);
    }
  }

  /** The layout's bin test `(y > ymin) & (y <= ymax)`. */
  predicate InBin(v: real, lo: real, hi: real) {
    lo < v <= hi
  }

  /** The bin, among consecutive edge pairs, whose test `v` passes first. */
  function BinOf(v: real, edges: seq<real>): (r: Option<nat>)
    ensures r.Some? ==> r.value + 1 < |edges| && InBin(v, edges[r.value], edges[r.value + 1])
    ensures r.None? ==> forall b :: 0 <= b < |edges| - 1 ==> !InBin(v, edges[b], edges[b + 1])
  {
    BinFrom(v, edges, 0)
  }

  function BinFrom(v: real, edges: seq<real>, b: nat): (r: Option<nat>)
    ensures r.Some? ==> b <= r.value && r.value + 1 < |edges| && InBin(v, edges[r.value], edges[r.value + 1])
    ensures r.None? ==> forall c :: b <= c < |edges| - 1 ==> !InBin(v, edges[c], edges[c + 1])
    decreases |edges| - b
  {
    if b + 1 >= |edges| then None
    else if InBin(v, edges[b], edges[b + 1]) then Some(b)
    else BinFrom(v, edges, b + 1)
  }

  /** Bins are disjoint: a value passes the test of at most one bin. */
  lemma BinsDisjoint(v: real, edges: seq<real>, a: nat, b: nat)
    requires StrictlyIncreasing(edges)
    requires a + 1 < |edges| && b + 1 < |edges|
    requires InBin(v, edges[a], edges[a + 1]) && InBin(v, edges[b], edges[b + 1])
    ensures a == b
  {
    if a < b {
      if a + 1 < b { IncreasingPairwise(edges, a + 1, b); }
    } else if b < a {
      if b + 1 < a { IncreasingPairwise(edges, b + 1, a); }
    }
  }

  /** A value in bin `b` is found in bin `b`. */
  lemma BinOfExact(v: real, edges: seq<real>, b: nat)
    requires StrictlyIncreasing(edges)
    requires b + 1 < |edges| && InBin(v, edges[b], edges[b + 1])
    ensures BinOf(v, edges) == Some(b)
  {
    var r := BinOf(v, edges);
    BinsDisjoint(v, edges, r.value, b);
  }

  /** `np.where((y > ymin) & (y <= ymax))[0]`: the indices in the bin, ascending. */
  function Where(y: seq<real>, lo: real, hi: real): (r: seq<nat>)
    ensures forall k :: 0 <= k < |r| ==> r[k] < |y| && InBin(y[r[k]], lo, hi)
    ensures forall i :: 0 <= i < |y| && InBin(y[i], lo, hi) ==> i in r
    ensures forall p, q :: 0 <= p < q < |r| ==> r[p] < r[q]
  {
    if y == [] then []
    else
      var r := Where(y[..|y| - 1], lo, hi);
      if InBin(y[|y| - 1], lo, hi) then r + [|y| - 1] else r
  }

  /** The indices the layout puts in bin `b`. */
  function Members(y: seq<real>, edges: seq<real>, b: nat): seq<nat>
    requires b + 1 < |edges|
  {
    Where(y, edges[b], edges[b + 1])
  }

  // ---------------------------------------------------------------------
  // Counting

  function CountIf(s: seq<nat>, p: nat -> bool): nat {
    if s == [] then 0 else (if p(s[0]) then 1 else 0) + CountIf(s[1..], p)
  }

  lemma {:induction false} CountIfAppend(a: seq<nat>, b: seq<nat>, p: nat -> bool)
    ensures CountIf(a + b, p) == CountIf(a, p) + CountIf(b, p)
  {
    if a == [] {
      assert a + b == b;
    } else {
      assert (a + b)[1..] == a[1..] + b;
      CountIfAppend(a[1..], b, p);
    }
  }

  /** Taking out the element at position `i`. */
  lemma CountIfRemove(t: seq<nat>, i: nat, p: nat -> bool)
    requires i < |t|
    ensures CountIf(t, p) == (if p(t[i]) then 1 else 0) + CountIf(t[..i] + t[i + 1..], p)
  {
    assert t == t[..i] + ([t[i]] + t[i + 1..]);
    CountIfAppend(t[..i], [t[i]] + t[i + 1..], p);
    CountIfAppend([t[i]], t[i + 1..], p);
    CountIfAppend(t[..i], t[i + 1..], p);
  }

  /** Counting does not depend on the order of the elements. */
  lemma {:induction false} CountIfPermutation(s: seq<nat>, t: seq<nat>, p: nat -> bool)
    requires multiset(s) == multiset(t)
    ensures CountIf(s, p) == CountIf(t, p)
  {
    if s != [] {
      var x := s[0];
      assert x in multiset(t);
      var i :| 0 <= i < |t| && t[i] == x;
      var t' := t[..i] + t[i + 1..];
      assert multiset(s[1..]) == multiset(t') by {
        assert t == t[..i] + [x] + t[i + 1..];
        assert s == [x] + s[1..];
        assert multiset(s[1..]) == multiset(s) - multiset{x};
        assert multiset(t') == multiset(t) - multiset{x};
      }
      CountIfPermutation(s[1..], t', p);
      CountIfRemove(t, i, p);
    }
  }

  lemma {:induction false} CountIfAll(s: seq<nat>, p: nat -> bool)
    requires forall k :: 0 <= k < |s| ==> p(s[k])
    ensures CountIf(s, p) == |s|
  {
    if s != [] { CountIfAll(s[1..], p); }
  }

  lemma {:induction false} CountIfNone(s: seq<nat>, p: nat -> bool)
    requires forall k :: 0 <= k < |s| ==> !p(s[k])
    ensures CountIf(s, p) == 0
  {
    if s != [] { CountIfNone(s[1..], p); }
  }

  // ---------------------------------------------------------------------
  // Ordering within a bin

  /** Order of `np.argsort(y[in_bin])` over indices: by value, ties by index. */
  predicate Before(y: seq<real>, a: nat, b: nat) {
    a < |y| && b < |y| && (y[a] < y[b] || (y[a] == y[b] && a < b))
  }

  function BeforeFn(y: seq<real>, i: nat): nat -> bool {
    (j: nat) => Before(y, j, i)
  }

  /** Rank of index `i` among the indices `s`: how many come before it. */
  function Rank(y: seq<real>, s: seq<nat>, i: nat): nat {
    CountIf(s, BeforeFn(y, i))
  }

  predicate IndicesOf(y: seq<real>, s: seq<nat>) {
    forall k :: 0 <= k < |s| ==> s[k] < |y|
  }

  predicate Distinct(s: seq<nat>) {
    forall p, q :: 0 <= p < q < |s| ==> s[p] != s[q]
  }

  predicate SortedBy(y: seq<real>, s: seq<nat>) {
    forall p, q :: 0 <= p < q < |s| ==> Before(y, s[p], s[q])
  }

  function Insert(y: seq<real>, x: nat, s: seq<nat>): (r: seq<nat>)
    requires x < |y| && IndicesOf(y, s) && SortedBy(y, s) && x !in s
    ensures multiset(r) == multiset(s) + multiset{x}
    ensures |r| == |s| + 1
    ensures forall k :: 0 <= k < |r| ==> r[k] == x || r[k] in s
    ensures IndicesOf(y, r) && SortedBy(y, r)
  {
    if s == [] then [x]
    else if Before(y, x, s[0]) then [x] + s
    else
      var rest := Insert(y, x, s[1..]);
      assert s == [s[0]] + s[1..];
      [s[0]] + rest
  }

  /** `in_bin[np.argsort(y[in_bin])]`, an insertion sort by `Before`. */
  function ArgSort(y: seq<real>, s: seq<nat>): (r: seq<nat>)
    requires IndicesOf(y, s) && Distinct(s)
    ensures multiset(r) == multiset(s)
    ensures |r| == |s|
    ensures IndicesOf(y, r) && SortedBy(y, r)
  {
    if s == [] then []
    else
      var rest := ArgSort(y, s[1..]);
      assert s[0] !in s[1..];
      assert s[0] !in multiset(rest);
      assert s == [s[0]] + s[1..];
      Insert(y, s[0], rest)
  }

  /** In a sorted sequence, an element's rank is its position. */
  lemma SortedRank(y: seq<real>, s: seq<nat>, k: nat)
    requires IndicesOf(y, s) && SortedBy(y, s) && k < |s|
    ensures Rank(y, s, s[k]) == k
  {
    assert s == s[..k] + s[k..];
    CountIfAppend(s[..k], s[k..], BeforeFn(y, s[k]));
    CountIfAll(s[..k], BeforeFn(y, s[k]));
    CountIfNone(s[k..], BeforeFn(y, s[k]));
  }

  /** Ranks in the sorted order equal ranks among the bin's indices. */
  lemma ArgSortRank(y: seq<real>, s: seq<nat>, k: nat)
    requires IndicesOf(y, s) && Distinct(s) && k < |s|
    ensures Rank(y, s, ArgSort(y, s)[k]) == k
  {
    var r := ArgSort(y, s);
    SortedRank(y, r, k);
    CountIfPermutation(r, s, BeforeFn(y, r[k]));
  }

  // ---------------------------------------------------------------------
  // Offsets

  /** Offset of the point of rank `k` in its bin: rank 2j gets
      `dx * (0.5 + j)`, rank 2j+1 gets `-dx * (0.5 + j)`. */
  function Offset(dx: real, k: nat): real {
    if k % 2 == 0 then dx * (0.5 + (k / 2) as real) else -dx * (0.5 + (k / 2) as real)
  }

  /** The offset the layout gives point `i`: zero outside every bin, else by
      its rank among the points of its bin. */
  function OffsetOf(y: seq<real>, edges: seq<real>, dx: real, i: nat): real
    requires i < |y|
  {
    match BinOf(y[i], edges)
    case None => 0.0
    case Some(b) => Offset(dx, Rank(y, Members(y, edges, b), i))
  }

  /** The bin, if any, of point `i` is one of the first `b`. */
  predicate DoneBefore(y: seq<real>, edges: seq<real>, i: nat, b: nat)
    requires i < |y|
  {
    BinOf(y[i], edges).Some? && BinOf(y[i], edges).value < b
  }

  /** The offsets once the first `b` bins are done: their points have their
      final offsets, every other point still has the initial zero. */
  predicate LaidOut(y: seq<real>, edges: seq<real>, dx: real, b: nat, x: seq<real>) {
    |x| == |y| &&
    forall i :: 0 <= i < |y| ==> x[i] == if DoneBefore(y, edges, i, b) then OffsetOf(y, edges, dx, i) else 0.0
  }

  /** Writing bin `b`'s points in sorted order, and nothing else, takes the
      layout from `b` bins done to `b + 1`. */
  lemma LayoutStep(y: seq<real>, edges: seq<real>, dx: real, b: nat, before: seq<real>, after: seq<real>)
    requires StrictlyIncreasing(edges) && b + 1 < |edges|
    requires LaidOut(y, edges, dx, b, before) && |after| == |y|
    requires forall k :: 0 <= k < |ArgSort(y, Members(y, edges, b))| ==>
               after[ArgSort(y, Members(y, edges, b))[k]] == Offset(dx, k)
    requires forall j :: 0 <= j < |y| && j !in ArgSort(y, Members(y, edges, b)) ==> after[j] == before[j]
    ensures LaidOut(y, edges, dx, b + 1, after)
  {
    var inBin := Members(y, edges, b);
    var sorted := ArgSort(y, inBin);
    forall i | 0 <= i < |y|
      ensures after[i] == if DoneBefore(y, edges, i, b + 1) then OffsetOf(y, edges, dx, i) else 0.0
    {
      if BinOf(y[i], edges) == Some(b) {
        assert i in multiset(sorted);
        var k :| 0 <= k < |sorted| && sorted[k] == i;
        ArgSortRank(y, inBin, k);
      } else if i in sorted {
        assert i in multiset(inBin);
        BinOfExact(y[i], edges, b);
      }
    }
  }

  /** `x_offsets[left] = ...` (parity 0) or `x_offsets[right] = ...` (parity 1):
      writes the offsets of the ranks of one parity. */
  method AssignEveryOther(x: array<real>, order: seq<nat>, parity: nat, dx: real)
    requires parity < 2
    requires forall k :: 0 <= k < |order| ==> order[k] < x.Length
    requires Distinct(order)
    modifies x
    ensures forall k :: 0 <= k < |order| && k % 2 == parity ==> x[order[k]] == Offset(dx, k)
    ensures forall k :: 0 <= k < |order| && k % 2 != parity ==> x[order[k]] == old(x[order[k]])
    ensures forall j :: 0 <= j < x.Length && j !in order ==> x[j] == old(x[j])
  {
    var n := 0;
    var k := parity;
    while k < |order|
      invariant k == parity + 2 * n && k % 2 == parity
      invariant forall i :: 0 <= i < |order| ==>
                  x[order[i]] == if i % 2 == parity && i < k then Offset(dx, i) else old(x[order[i]])
      invariant forall j :: 0 <= j < x.Length && j !in order ==> x[j] == old(x[j])
      decreases |order| - k
    {
      assert k / 2 == n && (k + 1) % 2 != parity;
      assert forall i :: 0 <= i < |order| && i != k ==> order[i] != order[k];
      x[order[k]] := if parity == 0 then dx * (0.5 + n as real) else -dx * (0.5 + n as real);
      n := n + 1;
      k := k + 2;
    }
  }

  /** The loop over bins: zero-filled offsets, then each non-empty bin's
      points sorted by value and written alternately right and left. */
  method Layout(y: seq<real>, edges: seq<real>, dx: real) returns (offsets: seq<real>)
    requires StrictlyIncreasing(edges)
    ensures |offsets| == |y|
    ensures forall i :: 0 <= i < |y| ==> offsets[i] == OffsetOf(y, edges, dx, i)
  {
    var x := new real[|y|](_ => 0.0);
    var nb := if |edges| == 0 then 0 else |edges| - 1;
    for b := 0 to nb
      invariant LaidOut(y, edges, dx, b, x[..])
    {
      var inBin := Where(y, edges[b], edges[b + 1]);
      if |inBin| == 0 {
        LayoutStep(y, edges, dx, b, x[..], x[..]);
        continue;
      }
      ghost var before := x[..];
      var sorted := ArgSort(y, inBin);
      AssignEveryOther(x, sorted, 0, dx);
      AssignEveryOther(x, sorted, 1, dx);
      LayoutStep(y, edges, dx, b, before, x[..]);
    }
    assert LaidOut(y, edges, dx, nb, x[..]);
    offsets := x[..];
  }

  /** A value on or below the lowest edge is in no bin and keeps offset 0. */
  lemma LowestEdgeUntouched(y: seq<real>, edges: seq<real>, dx: real, i: nat)
    requires StrictlyIncreasing(edges) && |edges| >= 1
    requires i < |y| && y[i] <= edges[0]
    ensures OffsetOf(y, edges, dx, i) == 0.0
  {
    match BinOf(y[i], edges)
    case None =>
    case Some(b) =>
      if b > 0 { IncreasingPairwise(edges, 0, b); }
      assert false;
  }

  function PositiveFn(y: seq<real>, edges: seq<real>, dx: real): nat -> bool {
    (i: nat) => i < |y| && OffsetOf(y, edges, dx, i) > 0.0
  }

  function NegativeFn(y: seq<real>, edges: seq<real>, dx: real): nat -> bool {
    (i: nat) => i < |y| && OffsetOf(y, edges, dx, i) < 0.0
  }

  /** Counting a predicate that holds exactly at the positions of one parity. */
  lemma {:induction false} CountParity(r: seq<nat>, p: nat -> bool, parity: nat)
    requires parity < 2
    requires forall k :: 0 <= k < |r| ==> (p(r[k]) <==> k % 2 == parity)
    ensures CountIf(r, p) == (|r| + 1 - parity) / 2
  {
    if r != [] {
      forall k | 0 <= k < |r| - 1 ensures p(r[1..][k]) <==> k % 2 == 1 - parity {
        assert r[1..][k] == r[k + 1];
      }
      CountParity(r[1..], p, 1 - parity);
    }
  }

  /** Within a bin sorted by value, rank 2j sits at `+dx * (0.5 + j)` and
      rank 2j+1 at `-dx * (0.5 + j)`. */
  lemma RankedOffset(y: seq<real>, edges: seq<real>, dx: real, b: nat, k: nat)
    requires StrictlyIncreasing(edges) && b + 1 < |edges|
    requires k < |Members(y, edges, b)|
    ensures var i := ArgSort(y, Members(y, edges, b))[k];
      i < |y| &&
      OffsetOf(y, edges, dx, i) == if k % 2 == 0 then dx * (0.5 + (k / 2) as real)
                                   else -dx * (0.5 + (k / 2) as real)
  {
    var s := Members(y, edges, b);
    var i := ArgSort(y, s)[k];
    assert i in multiset(s);
    BinOfExact(y[i], edges, b);
    ArgSortRank(y, s, k);
  }

  lemma OffsetSign(dx: real, k: nat)
    requires dx > 0.0
    ensures Offset(dx, k) > 0.0 <==> k % 2 == 0
    ensures Offset(dx, k) < 0.0 <==> k % 2 == 1
  {
    var t := 0.5 + (k / 2) as real;
    assert dx * t > 0.0;
  }

  /** A bin of m points puts ceil(m/2) of them on the positive side and
      floor(m/2) on the negative side. */
  lemma SideCounts(y: seq<real>, edges: seq<real>, dx: real, b: nat)
    requires StrictlyIncreasing(edges) && b + 1 < |edges| && dx > 0.0
    ensures CountIf(Members(y, edges, b), PositiveFn(y, edges, dx)) == (|Members(y, edges, b)| + 1) / 2
    ensures CountIf(Members(y, edges, b), NegativeFn(y, edges, dx)) == |Members(y, edges, b)| / 2
  {
    var s := Members(y, edges, b);
    var r := ArgSort(y, s);
    forall k | 0 <= k < |r|
      ensures (PositiveFn(y, edges, dx)(r[k]) <==> k % 2 == 0)
      ensures (NegativeFn(y, edges, dx)(r[k]) <==> k % 2 == 1)
    {
      RankedOffset(y, edges, dx, b, k);
      OffsetSign(dx, k);
    }
    CountParity(r, PositiveFn(y, edges, dx), 0);
    CountParity(r, NegativeFn(y, edges, dx), 1);
    CountIfPermutation(s, r, PositiveFn(y, edges, dx));
    CountIfPermutation(s, r, NegativeFn(y, edges, dx));
  }

  // ---------------------------------------------------------------------
  // The routine as written, and with the spread bounded by `width`

  /** Points of `v` in np.histogram's bin `b`: `[lo, hi)`, the last bin `[lo, hi]`. */
  predicate InHistogramBin(v: real, edges: seq<real>, b: nat)
    requires b + 1 < |edges|
  {
    edges[b] <= v && (v < edges[b + 1] || (b + 2 == |edges| && v == edges[b + 1]))
  }

  /** `counts[b]` of `np.histogram(y, bins=edges)`. */
  function HistogramCount(y: seq<real>, edges: seq<real>, b: nat): nat
    requires b + 1 < |edges|
  {
    if y == [] then 0
    else HistogramCount(y[..|y| - 1], edges, b) + (if InHistogramBin(y[|y| - 1], edges, b) then 1 else 0)
  }

  /** `counts.max()` over the first `nb` bins (0 when there are none). */
  function MaxHistogramCount(y: seq<real>, edges: seq<real>, nb: nat): (m: nat)
    requires nb < |edges|
    ensures forall b :: 0 <= b < nb ==> HistogramCount(y, edges, b) <= m
    ensures nb > 0 ==> exists b :: 0 <= b < nb && HistogramCount(y, edges, b) == m
  {
    if nb == 0 then 0
    else
      var m := MaxHistogramCount(y, edges, nb - 1);
      var c := HistogramCount(y, edges, nb - 1);
      if c > m then c else m
  }

  /** `dx = width / (max_bin_count // 2 + 1e-5)`. */
  function DxAsWritten(y: seq<real>, width: real, edges: seq<real>): (dx: real)
    requires |edges| >= 1
    ensures width > 0.0 ==> dx > 0.0
  {
    var maxCount := MaxHistogramCount(y, edges, |edges| - 1);
    width / ((maxCount / 2) as real + 0.00001)
  }

  /** `_beeswarm(y, width)` with the edges `np.histogram(y, bins=nbins)` returns. */
  method Beeswarm(y: seq<real>, width: real, edges: seq<real>) returns (r: Result<seq<real>>)
    requires |y| > 0 ==> |edges| == NumBins(|y|) + 1 && StrictlyIncreasing(edges)
    ensures |y| == 0 <==> r == Err(ValueError)
    ensures r.Ok? ==> |r.value| == |y|
    ensures r.Ok? ==> forall i :: 0 <= i < |y| ==>
              r.value[i] == OffsetOf(y, edges, DxAsWritten(y, width, edges), i)
  {
    if |y| == 0 {
      // np.histogram refuses bins=0
      return Err(ValueError);
    }
    var dx := DxAsWritten(y, width, edges);
    var offsets := Layout(y, edges, dx);
    return Ok(offsets);
  }

  /** When no histogram bin holds two points, the offsets are spaced by
      `width / 1e-5`. */
  lemma DxBlowsUp(y: seq<real>, width: real, edges: seq<real>)
    requires |edges| >= 1
    requires forall b :: 0 <= b < |edges| - 1 ==> HistogramCount(y, edges, b) <= 1
    ensures DxAsWritten(y, width, edges) == 100000.0 * width
  {
    var m := MaxHistogramCount(y, edges, |edges| - 1);
    assert m <= 1 by {
      if |edges| - 1 > 0 {
        var b :| 0 <= b < |edges| - 1 && HistogramCount(y, edges, b) == m;
      }
    }
  }

  /** A single point gets offset 50000 times the width it should stay within. */
  lemma SinglePointAsWritten()
    ensures OffsetOf([5.0], [4.5, 5.5], DxAsWritten([5.0], 1.0, [4.5, 5.5]), 0) == 50000.0
  {
    var y, edges := [5.0], [4.5, 5.5];
    DxBlowsUp(y, 1.0, edges);
    BinOfExact(5.0, edges, 0);
    assert Members(y, edges, 0) == [0];
    assert Rank(y, [0], 0) == 0 by {
      assert !BeforeFn(y, 0)(0);
    }
  }

  /** Largest number of points the layout puts in one of the first `nb` bins. */
  function MaxBinSize(y: seq<real>, edges: seq<real>, nb: nat): (m: nat)
    requires nb < |edges|
    ensures forall b :: 0 <= b < nb ==> |Members(y, edges, b)| <= m
  {
    if nb == 0 then 0
    else
      var m := MaxBinSize(y, edges, nb - 1);
      var c := |Members(y, edges, nb - 1)|;
      if c > m then c else m
  }

  /** Spacing so that the widest bin spans `width` on each side:
      `width / ceil(m / 2)` for the largest bin size `m`. */
  function DxBounded(y: seq<real>, width: real, edges: seq<real>): (dx: real)
    requires |edges| >= 1
    ensures width >= 0.0 ==> dx >= 0.0
  {
    var m := MaxBinSize(y, edges, |edges| - 1);
    if m == 0 then 0.0 else width / (((m + 1) / 2) as real)
  }

  /** A point's rank is below the size of its bin. */
  lemma RankBelowSize(y: seq<real>, edges: seq<real>, b: nat, i: nat)
    requires b + 1 < |edges| && i < |y| && i in Members(y, edges, b)
    ensures Rank(y, Members(y, edges, b), i) < |Members(y, edges, b)|
  {
    var s := Members(y, edges, b);
    var r := ArgSort(y, s);
    assert i in multiset(r);
    var k :| 0 <= k < |r| && r[k] == i;
    ArgSortRank(y, s, k);
  }

  lemma HalfRankBelow(k: nat, m: nat)
    requires k < m
    ensures (k / 2) as real + 0.5 < ((m + 1) / 2) as real
  {
    assert k / 2 + 1 <= (m + 1) / 2;
  }

  lemma DivideThenMultiply(w: real, c: real)
    requires w >= 0.0 && c > 0.0
    ensures w / c >= 0.0 && (w / c) * c == w
  {
  }

  lemma OffsetWithin(dx: real, k: nat, c: real, width: real)
    requires dx >= 0.0 && dx * c == width
    requires (k / 2) as real + 0.5 < c
    ensures -width <= Offset(dx, k) <= width
  {
    var t := 0.5 + (k / 2) as real;
    assert dx * t <= dx * c;
  }

  /** The offset of rank `k < m` with spacing `width / ceil(m / 2)`. */
  lemma SpacedWithin(width: real, m: nat, k: nat)
    requires width >= 0.0 && k < m
    ensures -width <= Offset(width / (((m + 1) / 2) as real), k) <= width
  {
    HalfRankBelow(k, m);
    var c := ((m + 1) / 2) as real;
    DivideThenMultiply(width, c);
    OffsetWithin(width / c, k, c, width);
  }

  /** With the corrected spacing, every offset lies within `width` of the centre. */
  lemma BoundedOffsets(y: seq<real>, width: real, edges: seq<real>, i: nat)
    requires StrictlyIncreasing(edges) && |edges| >= 1
    requires width >= 0.0 && i < |y|
    ensures -width <= OffsetOf(y, edges, DxBounded(y, width, edges), i) <= width
  {
    match BinOf(y[i], edges)
    case None =>
    case Some(b) =>
      var s := Members(y, edges, b);
      RankBelowSize(y, edges, b, i);
      var k := Rank(y, s, i);
      var m := MaxBinSize(y, edges, |edges| - 1);
      assert k < m;
      SpacedWithin(width, m, k);
  }

  /** `_beeswarm` with the spacing that keeps the swarm within `width`. */
  method BeeswarmBounded(y: seq<real>, width: real, edges: seq<real>) returns (r: Result<seq<real>>)
    requires |y| > 0 ==> |edges| == NumBins(|y|) + 1 && StrictlyIncreasing(edges)
    requires width >= 0.0
    ensures |y| == 0 <==> r == Err(ValueError)
    ensures r.Ok? ==> |r.value| == |y|
    ensures r.Ok? ==> forall i :: 0 <= i < |y| ==> -width <= r.value[i] <= width
    ensures r.Ok? ==> forall i :: 0 <= i < |y| ==>
              r.value[i] == OffsetOf(y, edges, DxBounded(y, width, edges), i)
  {
    if |y| == 0 {
      return Err(ValueError);
    }
    var offsets := Layout(y, edges, DxBounded(y, width, edges));
    forall i | 0 <= i < |y| ensures -width <= offsets[i] <= width {
      BoundedOffsets(y, width, edges, i);
    }
    return Ok(offsets);
  }
}
