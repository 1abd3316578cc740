// The numpy reductions the feature extractor relies on (np.mean, np.median,
// np.diff), stated over exact reals instead of 64-bit floats.
module Stats {

  function Sum(s: seq<real>): real
  {
    if s == [] then 0.0 else s[0] + Sum(s[1..])
  }

  /** np.mean of a non-empty sample. */
  function Mean(s: seq<real>): real
    requires |s| > 0
  {
    Sum(s) / (|s| as real)
  }

  /** Widens integer samples (pixel intensities, box coordinates) to reals. */
  function ToReals(s: seq<int>): (r: seq<real>)
    ensures |r| == |s|
    ensures forall i :: 0 <= i < |s| ==> r[i] == s[i] as real
  {
    if s == [] then [] else [s[0] as real] + ToReals(s[1..])
  }

  lemma {:induction false} SumBounds(s: seq<real>, lo: real, hi: real)
    requires forall i :: 0 <= i < |s| ==> lo <= s[i] <= hi
    ensures (|s| as real) * lo <= Sum(s) <= (|s| as real) * hi
  {
    if s != [] {
      SumBounds(s[1..], lo, hi);
      var n := (|s| - 1) as real;
      assert (n + 1.0) * lo == n * lo + lo;
      assert (n + 1.0) * hi == n * hi + hi;
    }
  }

  /** A mean lies within any bounds that hold of every sample. */
  lemma MeanBounds(s: seq<real>, lo: real, hi: real)
    requires |s| > 0
    requires forall i :: 0 <= i < |s| ==> lo <= s[i] <= hi
    ensures lo <= Mean(s) <= hi
  {
    SumBounds(s, lo, hi);
    var n := |s| as real;
    DivideMonotone(n * lo, Sum(s), n);
    DivideMonotone(Sum(s), n * hi, n);
  }

  lemma DivideMonotone(x: real, y: real, n: real)
    requires n > 0.0 && x <= y
    ensures x / n <= y / n
  {
  }

  /** n copies of v. */
  function Constant(n: nat, v: real): (s: seq<real>)
    ensures |s| == n
    ensures forall i :: 0 <= i < n ==> s[i] == v
  {
    if n == 0 then [] else [v] + Constant(n - 1, v)
  }

  lemma {:induction false} SumOnes(n: nat)
    ensures Sum(Constant(n, 1.0)) == n as real
  {
    if n > 0 {
      SumOnes(n - 1);
    }
  }

  /** r == m*a + c*b, kept behind a name so that the solver treats the
      products as opaque atoms where it only needs to match them. */
  predicate Affine(r: real, m: real, a: real, c: real, b: real)
  {
    r == m * a + c * b
  }

  lemma LinearStep(a0: real, b0: real, r0: real, m: real, c: real, sa: real, sb: real, sr: real)
    requires Affine(r0, m, a0, c, b0) && Affine(sr, m, sa, c, sb)
    ensures Affine(r0 + sr, m, a0 + sa, c, b0 + sb)
  {
  }

  /** Sums are linear: a sample that is pointwise m*a + c*b sums to m*Sum(a) + c*Sum(b). */
  lemma {:induction false} SumLinear(a: seq<real>, b: seq<real>, r: seq<real>, m: real, c: real)
    requires |a| == |b| == |r|
    requires forall i :: 0 <= i < |r| ==> Affine(r[i], m, a[i], c, b[i])
    ensures Affine(Sum(r), m, Sum(a), c, Sum(b))
  {
    if r != [] {
      SumLinear(a[1..], b[1..], r[1..], m, c);
      LinearStep(a[0], b[0], r[0], m, c, Sum(a[1..]), Sum(b[1..]), Sum(r[1..]));
    }
  }

  predicate Sorted(s: seq<real>)
  {
    forall i, j :: 0 <= i < j < |s| ==> s[i] <= s[j]
  }

  function Insert(v: real, s: seq<real>): (r: seq<real>)
    requires Sorted(s)
    ensures Sorted(r)
    ensures multiset(r) == multiset(s) + multiset{v}
  {
    if s == [] || v <= s[0] then
      [v] + s
    else
      var t := Insert(v, s[1..]);
      HeadBelowInsert(v, s, t);
      assert s == [s[0]] + s[1..];
      [s[0]] + t
  }

  lemma HeadBelowInsert(v: real, s: seq<real>, t: seq<real>)
    requires Sorted(s) && s != [] && s[0] < v
    requires multiset(t) == multiset(s[1..]) + multiset{v}
    ensures forall j :: 0 <= j < |t| ==> s[0] <= t[j]
  {
    forall j | 0 <= j < |t| ensures s[0] <= t[j] {
      assert t[j] in multiset(t);
      if t[j] != v {
        assert t[j] in multiset(s[1..]);
        var i :| 0 <= i < |s[1..]| && s[1..][i] == t[j];
        assert s[i + 1] == t[j];
      }
    }
  }

  /** The least element of a sorted sequence is its head. */
  lemma HeadIsLeast(a: seq<real>, x: real)
    requires Sorted(a) && x in multiset(a)
    ensures a[0] <= x
  {
    assert x in a;
    var i :| 0 <= i < |a| && a[i] == x;
  }

  /** The ascending order np.median sorts its sample into. */
  function Sort(s: seq<real>): (r: seq<real>)
    ensures Sorted(r)
    ensures multiset(r) == multiset(s)
  {
    if s == [] then []
    else
      assert s == [s[0]] + s[1..];
      Insert(s[0], Sort(s[1..]))
  }

  /** A sorted arrangement of a multiset of reals is unique. */
  lemma {:induction false} SortedUnique(a: seq<real>, b: seq<real>)
    requires Sorted(a) && Sorted(b)
    requires multiset(a) == multiset(b)
    ensures a == b
  {
    if a != [] {
      assert |b| == |a| by {
        assert |multiset(a)| == |a| && |multiset(b)| == |b|;
      }
      assert a[0] in multiset(b) && b[0] in multiset(a) by {
        assert a[0] in a && b[0] in b;
      }
      HeadIsLeast(a, b[0]);
      HeadIsLeast(b, a[0]);
      assert a[0] == b[0];
      assert multiset(a[1..]) == multiset(b[1..]) by {
        assert a == [a[0]] + a[1..];
        assert b == [b[0]] + b[1..];
        assert multiset(a) == multiset{a[0]} + multiset(a[1..]);
        assert multiset(b) == multiset{b[0]} + multiset(b[1..]);
        assert multiset(a[1..]) == multiset(a) - multiset{a[0]};
        assert multiset(b[1..]) == multiset(b) - multiset{b[0]};
      }
      SortedTail(a);
      SortedTail(b);
      SortedUnique(a[1..], b[1..]);
      assert a == [a[0]] + a[1..];
      assert b == [b[0]] + b[1..];
    }
  }

  lemma SortedTail(a: seq<real>)
    requires Sorted(a) && a != []
    ensures Sorted(a[1..])
  {
  }

  /** np.median: the middle element of the sorted sample, or the average of
      the two middle elements when the sample has even length. */
  function Median(s: seq<real>): real
    requires |s| > 0
  {
    var t := Sort(s);
    var n := |t|;
    if n % 2 == 1 then t[n / 2] else (t[n / 2 - 1] + t[n / 2]) / 2.0
  }

  /** The median lies between two of the samples; in particular it is within
      any bounds every sample satisfies. */
  lemma MedianBetween(s: seq<real>)
    requires |s| > 0
    ensures exists i, j :: 0 <= i < |s| && 0 <= j < |s| && s[i] <= Median(s) <= s[j]
  {
    var t := Sort(s);
    var n := |t|;
    assert |multiset(t)| == |multiset(s)|;
    var lo := if n % 2 == 1 then n / 2 else n / 2 - 1;
    var hi := n / 2;
    assert t[lo] <= Median(s) <= t[hi];
    assert t[lo] in multiset(s) && t[hi] in multiset(s);
    var i :| 0 <= i < |s| && s[i] == t[lo];
    var j :| 0 <= j < |s| && s[j] == t[hi];
  }

  lemma MedianBounds(s: seq<real>, lo: real, hi: real)
    requires |s| > 0
    requires forall i :: 0 <= i < |s| ==> lo <= s[i] <= hi
    ensures lo <= Median(s) <= hi
  {
    MedianBetween(s);
  }

  /** The median depends only on the multiset of samples, not their order. */
  lemma MedianOfPermutation(s: seq<real>, u: seq<real>)
    requires |s| > 0
    requires multiset(s) == multiset(u)
    ensures |u| > 0 && Median(s) == Median(u)
  {
    assert |multiset(s)| == |multiset(u)|;
    SortedUnique(Sort(s), Sort(u));
  }

  lemma MedianOfOne(v: real)
    ensures Median([v]) == v
  {
    assert [v][1..] == [];
    assert Sort([v]) == [v];
  }

  /** np.diff: successive differences. */
  function Diff(s: seq<real>): (d: seq<real>)
    ensures |d| == if |s| == 0 then 0 else |s| - 1
    ensures forall i :: 0 <= i < |d| ==> d[i] == s[i + 1] - s[i]
  {
    if |s| < 2 then [] else [s[1] - s[0]] + Diff(s[1..])
  }
}
