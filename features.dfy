// graphology_module.extract_graphological_features, from the word contours
// on: the seven features, the per-line samples they are medians of, and the
// imperative extraction loop proved equal to the specification Extract.
module Graphology {
  import opened Stats
  import opened WordBoxes

  /** The feature dictionary: exactly seven named reals. */
  datatype Features = Features(
    pressure: real,
    letterSize: real,
    slant: real,
    baselineSlope: real,
    wordSpacing: real,
    lineSpacing: real,
    leftMargin: real)

  const NoFeatures := Features(0.0, 0.0, 0.0, 0.0, 0.0, 0.0, 0.0)

  // ---------------------------------------------------------------------
  // Per-line samples

  /** Horizontal distance from the right edge of a to the left edge of b. */
  function Gap(a: Box, b: Box): int
  {
    b.x - (a.x + a.w)
  }

  /** The strictly positive gaps between adjacent words of one line. */
  function LineGaps(line: seq<Box>): (gs: seq<real>)
    ensures forall k :: 0 <= k < |gs| ==> gs[k] >= 1.0
    ensures |gs| <= if |line| == 0 then 0 else |line| - 1
  {
    if |line| < 2 then []
    else
      var g := Gap(line[|line| - 2], line[|line| - 1]);
      LineGaps(line[..|line| - 1]) + (if g > 0 then [g as real] else [])
  }

  /** Each word-spacing sample of a line is the gap of an adjacent pair of
      its words. */
  lemma {:induction false} LineGapsSound(line: seq<Box>)
    ensures forall k :: 0 <= k < |LineGaps(line)| ==>
              exists i :: 0 <= i < |line| - 1 && LineGaps(line)[k] == Gap(line[i], line[i + 1]) as real
  {
    LineGapsInOrder(line);
    forall k | 0 <= k < |LineGaps(line)|
      ensures exists i :: 0 <= i < |line| - 1 && LineGaps(line)[k] == Gap(line[i], line[i + 1]) as real
    {
      var i := Marked(GapMask(line))[k];
      assert i < |line| - 1 && LineGaps(line)[k] == Gap(line[i], line[i + 1]) as real;
    }
  }

  /** Every positive gap between adjacent words of a line is one of its
      word-spacing samples. */
  lemma {:induction false} LineGapsComplete(line: seq<Box>)
    ensures forall i :: 0 <= i < |line| - 1 && Gap(line[i], line[i + 1]) > 0 ==>
              Gap(line[i], line[i + 1]) as real in LineGaps(line)
  {
    LineGapsInOrder(line);
    GapMaskMeaning(line);
    var idx := Marked(GapMask(line));
    forall i | 0 <= i < |line| - 1 && Gap(line[i], line[i + 1]) > 0
      ensures Gap(line[i], line[i + 1]) as real in LineGaps(line)
    {
      assert GapMask(line)[i];
      assert i in idx;
      var k :| 0 <= k < |idx| && idx[k] == i;
      assert LineGaps(line)[k] == Gap(line[i], line[i + 1]) as real;
    }
  }

  /** Which adjacent pairs of a line are separated by a positive gap. */
  function GapMask(line: seq<Box>): (m: seq<bool>)
    ensures |m| == if |line| < 2 then 0 else |line| - 1
  {
    if |line| < 2 then []
    else
      var n := |line|;
      GapMask(line[..n - 1]) + [Gap(line[n - 2], line[n - 1]) > 0]
  }

  lemma {:induction false} GapMaskMeaning(line: seq<Box>)
    ensures forall i :: 0 <= i < |GapMask(line)| ==> GapMask(line)[i] == (Gap(line[i], line[i + 1]) > 0)
  {
    if |line| >= 2 {
      var n := |line|;
      GapMaskMeaning(line[..n - 1]);
      assert forall i :: 0 <= i < n - 1 ==> line[..n - 1][i] == line[i];
    }
  }

  /** gs[k] is the gap after word idx[k] of the line, for every k. */
  predicate GapsAt(line: seq<Box>, idx: seq<nat>, gs: seq<real>)
  {
    |gs| == |idx|
    && forall k :: 0 <= k < |gs| ==>
         idx[k] + 1 < |line| && gs[k] == Gap(line[idx[k]], line[idx[k] + 1]) as real
  }

  /** One more word on the line: its gap to the previous word is kept (as g)
      or not. */
  lemma GapsAtSnoc(line: seq<Box>, idx: seq<nat>, gs: seq<real>, keep: bool, g: real)
    requires |line| >= 2 && GapsAt(line[..|line| - 1], idx, gs)
    requires keep ==> g == Gap(line[|line| - 2], line[|line| - 1]) as real
    ensures GapsAt(line, idx + (if keep then [|line| - 2] else []), gs + (if keep then [g] else []))
  {
    var n := |line|;
    var idx', gs' := idx + (if keep then [n - 2] else []), gs + (if keep then [g] else []);
    forall k | 0 <= k < |gs'|
      ensures idx'[k] + 1 < n && gs'[k] == Gap(line[idx'[k]], line[idx'[k] + 1]) as real
    {
      if k < |gs| {
        var i := idx[k];
        assert idx'[k] == i && gs'[k] == gs[k];
        assert line[..n - 1][i] == line[i] && line[..n - 1][i + 1] == line[i + 1];
      } else {
        assert idx'[k] == n - 2 && gs'[k] == g;
      }
    }
  }

  /** One sample per positive gap, left to right: the k-th sample is the gap
      after the k-th word that is followed by a positive gap. */
  lemma {:induction false} LineGapsInOrder(line: seq<Box>)
    ensures |LineGaps(line)| == |Marked(GapMask(line))|
    ensures forall k :: 0 <= k < |LineGaps(line)| ==>
              Marked(GapMask(line))[k] + 1 < |line|
              && LineGaps(line)[k] == Gap(line[Marked(GapMask(line))[k]], line[Marked(GapMask(line))[k] + 1]) as real
  {
    LineGapsAt(line);
  }

  lemma {:induction false} LineGapsAt(line: seq<Box>)
    ensures GapsAt(line, Marked(GapMask(line)), LineGaps(line))
  {
    if |line| >= 2 {
      var n := |line|;
      var p := line[..n - 1];
      var g := Gap(line[n - 2], line[n - 1]);
      LineGapsAt(p);
      GapsAtSnoc(line, Marked(GapMask(p)), LineGaps(p), g > 0, g as real);
      assert Marked(GapMask(line)) == Marked(GapMask(p)) + (if g > 0 then [n - 2] else []) by {
        assert GapMask(line) == GapMask(p) + [g > 0];
        MarkedSnoc(GapMask(p), g > 0);
      }
      assert LineGaps(line) == LineGaps(p) + (if g > 0 then [g as real] else []);
    } else {
      assert LineGaps(line) == [];
      assert GapMask(line) == [];
    }
  }

  /** x of each word's bottom centre, x + w/2 with true division. */
  function Centres(line: seq<Box>): (xs: seq<real>)
    ensures |xs| == |line|
  {
    seq(|line|, i requires 0 <= i < |line| => line[i].x as real + line[i].w as real / 2.0)
  }

  /** y of each word's bottom edge, y + h. */
  function Bottoms(line: seq<Box>): (ys: seq<real>)
    ensures |ys| == |line|
  {
    seq(|line|, i requires 0 <= i < |line| => (line[i].y + line[i].h) as real)
  }

  /** The pointwise products xs[i] * ys[i]. */
  function Products(xs: seq<real>, ys: seq<real>): (ps: seq<real>)
    requires |xs| == |ys|
    ensures |ps| == |xs|
  {
    seq(|xs|, i requires 0 <= i < |xs| => xs[i] * ys[i])
  }

  function SumProducts(xs: seq<real>, ys: seq<real>): real
    requires |xs| == |ys|
  {
    Sum(Products(xs, ys))
  }

  /** The least-squares normal equations of a degree-one fit have a unique
      solution: n * sum(x^2) - sum(x)^2, the determinant, is not zero. */
  predicate Spread(n: real, sx: real, sxx: real)
  {
    n * sxx - sx * sx != 0.0
  }

  /** The least-squares slope in closed form, from the point count and the
      sums of x, x^2, x*y and y. */
  function SlopeFromSums(n: real, sx: real, sxx: real, sxy: real, sy: real): real
    requires Spread(n, sx, sxx)
  {
    (n * sxy - sx * sy) / (n * sxx - sx * sx)
  }

  /** The slope np.polyfit(xs, ys, 1) returns, in exact arithmetic. When all xs
      coincide at c the design matrix has rank one and numpy's least-squares
      solver returns its minimum-norm solution over the column-scaled matrix,
      whose slope is mean(ys) / (2 c). */
  function FitSlope(xs: seq<real>, ys: seq<real>): real
    requires |xs| == |ys| > 0
  {
    var n := |xs| as real;
    if Spread(n, Sum(xs), SumProducts(xs, xs)) then
      SlopeFromSums(n, Sum(xs), SumProducts(xs, xs), SumProducts(xs, ys), Sum(ys))
    else if xs[0] == 0.0 then 0.0
    else Mean(ys) / (2.0 * xs[0])
  }

  /** The sums of points on the line y = m x + c satisfy both normal equations. */
  predicate OnLine(n: real, m: real, c: real, sx: real, sxx: real, sxy: real, sy: real)
  {
    Affine(sxy, m, sxx, c, sx) && Affine(sy, m, sx, c, n)
  }

  lemma SlopeOfLineSums(n: real, m: real, c: real, sx: real, sxx: real, sxy: real, sy: real)
    requires Spread(n, sx, sxx)
    requires OnLine(n, m, c, sx, sxx, sxy, sy)
    ensures SlopeFromSums(n, sx, sxx, sxy, sy) == m
  {
    assert n * sxy - sx * sy == m * (n * sxx - sx * sx);
  }

  lemma HeadProduct(x: real, y: real, m: real, c: real)
    requires Affine(y, m, x, c, 1.0)
    ensures Affine(x * y, m, x * x, c, x)
  {
  }

  lemma ProductsOnLine(xs: seq<real>, ys: seq<real>, m: real, c: real)
    requires |xs| == |ys|
    requires forall i :: 0 <= i < |xs| ==> Affine(ys[i], m, xs[i], c, 1.0)
    ensures forall i :: 0 <= i < |xs| ==> Affine(Products(xs, ys)[i], m, Products(xs, xs)[i], c, xs[i])
  {
    forall i | 0 <= i < |xs| ensures Affine(Products(xs, ys)[i], m, Products(xs, xs)[i], c, xs[i]) {
      HeadProduct(xs[i], ys[i], m, c);
    }
  }

  lemma SumsOnLine(xs: seq<real>, ys: seq<real>, m: real, c: real)
    requires |xs| == |ys|
    requires forall i :: 0 <= i < |xs| ==> Affine(ys[i], m, xs[i], c, 1.0)
    ensures OnLine(|xs| as real, m, c, Sum(xs), SumProducts(xs, xs), SumProducts(xs, ys), Sum(ys))
  {
    SumLinear(xs, Constant(|xs|, 1.0), ys, m, c);
    SumOnes(|xs|);
    ProductsOnLine(xs, ys, m, c);
    SumLinear(Products(xs, xs), xs, Products(xs, ys), m, c);
  }

  /** np.polyfit recovers the slope of points that lie exactly on the line
      y = m x + c, whenever its normal equations are non-degenerate. */
  lemma FitSlopeOfCollinear(xs: seq<real>, ys: seq<real>, m: real, c: real)
    requires |xs| == |ys| > 0
    requires forall i :: 0 <= i < |xs| ==> Affine(ys[i], m, xs[i], c, 1.0)
    requires Spread(|xs| as real, Sum(xs), SumProducts(xs, xs))
    ensures FitSlope(xs, ys) == m
  {
    SumsOnLine(xs, ys, m, c);
    SlopeOfLineSums(|xs| as real, m, c, Sum(xs), SumProducts(xs, xs), SumProducts(xs, ys), Sum(ys));
  }

  /** The samples the per-line loop collects. */
  datatype LineSamples = LineSamples(
    leftMargins: seq<real>,
    wordGaps: seq<real>,
    slopes: seq<real>,
    positions: seq<real>)

  /** One turn of the per-line loop; empty lines are skipped. */
  function SampleLine(acc: LineSamples, line: seq<Box>): LineSamples
  {
    if line == [] then acc
    else
      var multi := |line| > 1;
      LineSamples(
        acc.leftMargins + [line[0].x as real],
        acc.wordGaps + LineGaps(line),
        if multi then acc.slopes + [FitSlope(Centres(line), Bottoms(line))] else acc.slopes,
        if multi then acc.positions + [Median(Bottoms(line))] else acc.positions)
  }

  /** What one turn of the per-line loop adds to each sample list. */
  lemma SampleLineAppends(acc: LineSamples, line: seq<Box>)
    ensures line == [] ==> SampleLine(acc, line) == acc
    ensures line != [] ==> SampleLine(acc, line).leftMargins == acc.leftMargins + [line[0].x as real]
    ensures SampleLine(acc, line).wordGaps == acc.wordGaps + LineGaps(line)
    ensures SampleLine(acc, line).slopes
            == acc.slopes + (if |line| > 1 then [FitSlope(Centres(line), Bottoms(line))] else [])
    ensures SampleLine(acc, line).positions
            == acc.positions + (if |line| > 1 then [Median(Bottoms(line))] else [])
  {
    if line == [] {
      assert LineGaps(line) == [];
    } else {
      var multi := |line| > 1;
      assert SampleLine(acc, line) == LineSamples(
        acc.leftMargins + [line[0].x as real],
        acc.wordGaps + LineGaps(line),
        if multi then acc.slopes + [FitSlope(Centres(line), Bottoms(line))] else acc.slopes,
        if multi then acc.positions + [Median(Bottoms(line))] else acc.positions);
    }
  }

  function SampleLines(ls: seq<seq<Box>>): (s: LineSamples)
    ensures forall k :: 0 <= k < |s.wordGaps| ==> s.wordGaps[k] >= 1.0
    ensures |s.slopes| == |s.positions|
  {
    if ls == [] then LineSamples([], [], [], [])
    else SampleLine(SampleLines(ls[..|ls| - 1]), ls[|ls| - 1])
  }

  /** The number of lines holding at least two words. */
  function MultiWordLines(ls: seq<seq<Box>>): nat
  {
    if ls == [] then 0 else MultiWordLines(ls[..|ls| - 1]) + (if |ls[|ls| - 1]| > 1 then 1 else 0)
  }

  /** Over non-empty lines: one left-margin sample per line, the x of its
      first word. */
  lemma {:induction false} LeftMarginsOfLines(ls: seq<seq<Box>>)
    requires forall i :: 0 <= i < |ls| ==> |ls[i]| > 0
    ensures |SampleLines(ls).leftMargins| == |ls|
    ensures forall i :: 0 <= i < |ls| ==> SampleLines(ls).leftMargins[i] == ls[i][0].x as real
  {
    forall i | 0 <= i < |ls|
      ensures i < |SampleLines(ls).leftMargins| && SampleLines(ls).leftMargins[i] == ls[i][0].x as real
    {
      LeftMarginAt(ls, i);
    }
    MarginCount(ls);
  }

  lemma {:induction false} MarginCount(ls: seq<seq<Box>>)
    requires forall i :: 0 <= i < |ls| ==> |ls[i]| > 0
    ensures |SampleLines(ls).leftMargins| == |ls|
  {
    if ls != [] {
      var p := ls[..|ls| - 1];
      MarginCount(p);
      SampleLineAppends(SampleLines(p), ls[|ls| - 1]);
    }
  }

  lemma {:induction false} LeftMarginAt(ls: seq<seq<Box>>, i: nat)
    requires forall j :: 0 <= j < |ls| ==> |ls[j]| > 0
    requires i < |ls|
    ensures i < |SampleLines(ls).leftMargins| && SampleLines(ls).leftMargins[i] == ls[i][0].x as real
  {
    var p := ls[..|ls| - 1];
    var last := ls[|ls| - 1];
    var margins := SampleLines(ls).leftMargins;
    var prev := SampleLines(p).leftMargins;
    assert |prev| == |p| && margins == prev + [last[0].x as real] by {
      SampleLineAppends(SampleLines(p), last);
      MarginCount(p);
    }
    if i < |p| {
      LeftMarginAt(p, i);
      assert margins[i] == prev[i] && p[i] == ls[i];
    } else {
      assert i == |prev| && last == ls[i];
      assert margins[i] == last[0].x as real;
    }
  }

  /** One slope and one line-position sample per line of two or more words. */
  lemma {:induction false} BaselinesOfLines(ls: seq<seq<Box>>)
    ensures |SampleLines(ls).slopes| == |SampleLines(ls).positions| == MultiWordLines(ls)
  {
    BaselineSamplesInOrder(ls);
    MultiWordLinesMarked(ls);
  }

  /** The lines of two or more words are the ones MultiMask marks. */
  lemma {:induction false} MultiWordLinesMarked(ls: seq<seq<Box>>)
    ensures |Marked(MultiMask(ls))| == MultiWordLines(ls)
  {
    if ls != [] {
      var n := |ls| - 1;
      MultiWordLinesMarked(ls[..n]);
      assert MultiMask(ls) == MultiMask(ls[..n]) + [|ls[n]| > 1];
      MarkedSnoc(MultiMask(ls[..n]), |ls[n]| > 1);
    }
  }

  /** Over lines ordered by x, each left-margin sample is the smallest x of
      its line. */
  lemma LeftMarginIsLeftmost(ls: seq<seq<Box>>)
    requires forall i :: 0 <= i < |ls| ==> |ls[i]| > 0 && SortedBy(ByX, ls[i])
    ensures |SampleLines(ls).leftMargins| == |ls|
    ensures forall i, j :: 0 <= i < |ls| && 0 <= j < |ls[i]| ==>
              SampleLines(ls).leftMargins[i] <= ls[i][j].x as real
  {
    LeftMarginsOfLines(ls);
    forall i, j | 0 <= i < |ls| && 0 <= j < |ls[i]|
      ensures SampleLines(ls).leftMargins[i] <= ls[i][j].x as real
    {
      if j > 0 {
        assert Le(ByX, ls[i][0], ls[i][j]);
      }
    }
  }

  /** Every word-spacing sample is a positive gap between two adjacent words
      of one line. */
  lemma {:induction false} WordGapsFromLines(ls: seq<seq<Box>>)
    ensures forall k :: 0 <= k < |SampleLines(ls).wordGaps| ==>
              exists i :: 0 <= i < |ls| && SampleLines(ls).wordGaps[k] in LineGaps(ls[i])
  {
    WordGapsConcat(ls);
    GapsPerLineMeaning(ls);
    var g := SampleLines(ls).wordGaps;
    forall k | 0 <= k < |g|
      ensures exists i :: 0 <= i < |ls| && g[k] in LineGaps(ls[i])
    {
      var i := FromFlatten(GapsPerLine(ls), g[k]);
      assert g[k] in LineGaps(ls[i]);
    }
  }

  /** The word-gap samples of each line. */
  function GapsPerLine(ls: seq<seq<Box>>): (gs: seq<seq<real>>)
    ensures |gs| == |ls|
  {
    if ls == [] then []
    else
      var n := |ls| - 1;
      GapsPerLine(ls[..n]) + [LineGaps(ls[n])]
  }

  lemma {:induction false} GapsPerLineMeaning(ls: seq<seq<Box>>)
    ensures forall i :: 0 <= i < |ls| ==> GapsPerLine(ls)[i] == LineGaps(ls[i])
  {
    if ls != [] {
      var n := |ls| - 1;
      GapsPerLineMeaning(ls[..n]);
      assert forall i :: 0 <= i < n ==> ls[..n][i] == ls[i];
    }
  }

  /** The page's word-gap samples are those of its lines, line after line,
      each line's in its own order. */
  lemma {:induction false} WordGapsConcat(ls: seq<seq<Box>>)
    ensures SampleLines(ls).wordGaps == Flatten(GapsPerLine(ls))
  {
    if ls != [] {
      var n := |ls| - 1;
      var p := ls[..n];
      WordGapsConcat(p);
      assert SampleLines(ls).wordGaps == SampleLines(p).wordGaps + LineGaps(ls[n]) by {
        assert SampleLines(ls) == SampleLine(SampleLines(p), ls[n]);
        SampleLineAppends(SampleLines(p), ls[n]);
      }
      FlattenSnoc(GapsPerLine(p), LineGaps(ls[n]));
    } else {
      assert GapsPerLine(ls) == [];
    }
  }

  /** Every positive gap between adjacent words of any line is a word-gap
      sample of the page. */
  lemma WordGapsOfEveryLine(ls: seq<seq<Box>>)
    ensures forall i, j :: 0 <= i < |ls| && 0 <= j < |ls[i]| - 1 && Gap(ls[i][j], ls[i][j + 1]) > 0 ==>
              Gap(ls[i][j], ls[i][j + 1]) as real in SampleLines(ls).wordGaps
  {
    WordGapsConcat(ls);
    GapsPerLineMeaning(ls);
    var gs := GapsPerLine(ls);
    forall i, j | 0 <= i < |ls| && 0 <= j < |ls[i]| - 1 && Gap(ls[i][j], ls[i][j + 1]) > 0
      ensures Gap(ls[i][j], ls[i][j + 1]) as real in SampleLines(ls).wordGaps
    {
      LineGapsComplete(ls[i]);
      var x := Gap(ls[i][j], ls[i][j + 1]) as real;
      assert x in gs[i];
      var k :| 0 <= k < |gs[i]| && gs[i][k] == x;
      InFlatten(gs, i, k);
    }
  }

  /** Which lines hold at least two words. */
  function MultiMask(ls: seq<seq<Box>>): (m: seq<bool>)
    ensures |m| == |ls|
  {
    if ls == [] then []
    else
      var n := |ls| - 1;
      MultiMask(ls[..n]) + [|ls[n]| > 1]
  }

  lemma {:induction false} MultiMaskMeaning(ls: seq<seq<Box>>)
    ensures forall i :: 0 <= i < |ls| ==> MultiMask(ls)[i] == (|ls[i]| > 1)
  {
    if ls != [] {
      var n := |ls| - 1;
      MultiMaskMeaning(ls[..n]);
      assert forall i :: 0 <= i < n ==> ls[..n][i] == ls[i];
    }
  }

  /** One slope and one position per line of two or more words, in line
      order: the k-th slope is the polyfit slope through the word bottoms of
      the k-th such line, and the k-th position the median of those bottoms. */
  lemma {:induction false} BaselineSamplesInOrder(ls: seq<seq<Box>>)
    ensures |SampleLines(ls).slopes| == |SampleLines(ls).positions| == |Marked(MultiMask(ls))|
    ensures forall k :: 0 <= k < |Marked(MultiMask(ls))| ==>
              var l := ls[Marked(MultiMask(ls))[k]];
              && |l| > 1
              && SampleLines(ls).slopes[k] == FitSlope(Centres(l), Bottoms(l))
              && SampleLines(ls).positions[k] == Median(Bottoms(l))
  {
    if ls != [] {
      var n := |ls| - 1;
      var p := ls[..n];
      BaselineSamplesInOrder(p);
      MarkedSnoc(MultiMask(p), |ls[n]| > 1);
      var idx, pidx := Marked(MultiMask(ls)), Marked(MultiMask(p));
      assert idx == pidx + (if |ls[n]| > 1 then [n] else []);
      var s, ps := SampleLines(ls), SampleLines(p);
      assert s == SampleLine(ps, ls[n]);
      SampleLineAppends(ps, ls[n]);
      forall k | 0 <= k < |idx|
        ensures var l := ls[idx[k]];
                && |l| > 1
                && s.slopes[k] == FitSlope(Centres(l), Bottoms(l))
                && s.positions[k] == Median(Bottoms(l))
      {
        if k < |pidx| {
          assert idx[k] == pidx[k] && p[pidx[k]] == ls[pidx[k]];
          assert s.slopes[k] == ps.slopes[k] && s.positions[k] == ps.positions[k];
        } else {
          assert k == |ps.slopes| && idx[k] == n && |ls[n]| > 1;
          assert s.slopes[k] == FitSlope(Centres(ls[n]), Bottoms(ls[n]));
          assert s.positions[k] == Median(Bottoms(ls[n]));
        }
      }
    }
  }

  /** Each line-spacing sample is the distance from the median bottom of one
      line of two or more words to that of the next such line. */
  lemma LineSpacingSamples(ls: seq<seq<Box>>)
    ensures |Diff(SampleLines(ls).positions)| == if |Marked(MultiMask(ls))| == 0 then 0 else |Marked(MultiMask(ls))| - 1
    ensures forall i, j :: 0 <= i && j == i + 1 && j < |Marked(MultiMask(ls))| ==>
              && Marked(MultiMask(ls))[i] < Marked(MultiMask(ls))[j]
              && |ls[Marked(MultiMask(ls))[i]]| > 1 && |ls[Marked(MultiMask(ls))[j]]| > 1
              && Diff(SampleLines(ls).positions)[i]
                 == Median(Bottoms(ls[Marked(MultiMask(ls))[j]])) - Median(Bottoms(ls[Marked(MultiMask(ls))[i]]))
  {
    BaselineSamplesInOrder(ls);
  }

  // ---------------------------------------------------------------------
  // The specification of extract_graphological_features

  predicate AnyInk(ink: seq<int>)
  {
    exists i :: 0 <= i < |ink| && ink[i] != 0
  }

  /** A median, or the default 0 when there is no sample. */
  function MedianOrZero(s: seq<real>): real
  {
    if s == [] then 0.0 else Median(s)
  }

  /** The features of a page, given whether the binary image has any contour,
      the grey levels of its ink pixels and its word contours. */
  function Extract(hasContours: bool, ink: seq<int>, contours: seq<WordContour>): Features
  {
    if !hasContours then NoFeatures
    else
      var pressure := if AnyInk(ink) then Mean(ToReals(ink)) else 0.0;
      var boxes := WordBoxesOf(contours);
      var letterSize := MedianOrZero(Heights(boxes));
      var slant := MedianOrZero(SlantAngles(contours));
      var base := Features(pressure, letterSize, slant, 0.0, 0.0, 0.0, 0.0);
      if boxes == [] then base
      else WithLayout(base, SampleLines(Lines(SortBy(RowMajor, boxes))))
  }

  /** The four layout features: medians of the per-line samples, and of the
      differences between successive line positions. */
  function WithLayout(f: Features, s: LineSamples): Features
  {
    f.(baselineSlope := MedianOrZero(s.slopes),
       wordSpacing := MedianOrZero(s.wordGaps),
       lineSpacing := MedianOrZero(Diff(s.positions)),
       leftMargin := MedianOrZero(s.leftMargins))
  }

  /** The contour loop: keep the boxes larger than 10 by 10 pixels, with
      their heights, and the slant angle of each that is not near vertical. */
  method FilterWords(contours: seq<WordContour>) returns (boxes: seq<Box>, heights: seq<real>, angles: seq<real>)
    ensures boxes == WordBoxesOf(contours)
    ensures heights == Heights(boxes)
    ensures angles == SlantAngles(contours)
  {
    boxes, heights, angles := [], [], [];
    var i := 0;
    while i < |contours|
      invariant 0 <= i <= |contours|
      invariant boxes == WordBoxesOf(contours[..i])
      invariant heights == Heights(boxes)
      invariant angles == SlantAngles(contours[..i])
    {
      var c := contours[i];
      FilterStep(contours, i);
      if c.box.w > 10 && c.box.h > 10 {
        HeightsSnoc(boxes, c.box);
        boxes := boxes + [c.box];
        heights := heights + [c.box.h as real];
        var angle := c.angle;
        if c.box.w < c.box.h {
          angle := 90.0 + angle;
        }
        assert angle == NormalizedAngle(c);
        if Abs(angle) < 45.0 {
          angles := angles + [angle];
        }
      }
      i := i + 1;
    }
    assert contours[..|contours|] == contours;
  }

  /** The grouping loop over boxes sorted top to bottom: a box starts a new
      line when its y is more than 0.7 of its own height away from the y of
      the first box of the current line; each line is then ordered by x. */
  method GroupIntoLines(boxes: seq<Box>) returns (lines: seq<seq<Box>>)
    requires |boxes| > 0
    ensures lines == Lines(boxes)
  {
    lines := [];
    ghost var raw: seq<seq<Box>> := [];
    var current: seq<Box> := [];
    var currentY := boxes[0].y;
    var j := 0;
    while j < |boxes|
      invariant 0 <= j <= |boxes|
      invariant raw + GroupFrom(boxes[j..], current, currentY) == RawLines(boxes)
      invariant lines == SortLines(raw)
    {
      var b := boxes[j];
      assert boxes[j..][1..] == boxes[j + 1..];
      if Abs((b.y - currentY) as real) > 0.7 * (b.h as real) {
        assert (raw + [current])[..|raw|] == raw;
        lines := lines + [SortBy(ByX, current)];
        raw := raw + [current];
        current := [b];
        currentY := b.y;
      } else {
        current := current + [b];
      }
      j := j + 1;
    }
    assert (raw + [current])[..|raw|] == raw;
    lines := lines + [SortBy(ByX, current)];
  }

  /** The word-spacing loop of one line. */
  method WordGapsOf(line: seq<Box>) returns (gaps: seq<real>)
    ensures gaps == LineGaps(line)
  {
    gaps := [];
    if |line| < 2 {
      return;
    }
    var g := 0;
    while g < |line| - 1
      invariant 0 <= g <= |line| - 1
      invariant gaps == LineGaps(line[..g + 1])
    {
      assert line[..g + 2][..g + 1] == line[..g + 1];
      var gap := line[g + 1].x - (line[g].x + line[g].w);
      if gap > 0 {
        gaps := gaps + [gap as real];
      }
      g := g + 1;
    }
    assert line[..|line|] == line;
  }

  /** The per-line loop: left margins, word gaps, baseline slopes and line
      positions. */
  method SampleEachLine(lines: seq<seq<Box>>)
    returns (margins: seq<real>, gaps: seq<real>, slopes: seq<real>, positions: seq<real>)
    ensures LineSamples(margins, gaps, slopes, positions) == SampleLines(lines)
  {
    margins, gaps, slopes, positions := [], [], [], [];
    var k := 0;
    while k < |lines|
      invariant 0 <= k <= |lines|
      invariant LineSamples(margins, gaps, slopes, positions) == SampleLines(lines[..k])
    {
      var line := lines[k];
      assert lines[..k + 1][..k] == lines[..k];
      if line != [] {
        margins := margins + [line[0].x as real];
        var lineGaps := WordGapsOf(line);
        gaps := gaps + lineGaps;
        var xs := Centres(line);
        var ys := Bottoms(line);
        if |xs| > 1 {
          slopes := slopes + [FitSlope(xs, ys)];
          positions := positions + [Median(ys)];
        }
      }
      k := k + 1;
    }
    assert lines[..|lines|] == lines;
  }

  /** The four medians taken after the per-line loop. */
  method SetLayout(features: Features, margins: seq<real>, gaps: seq<real>, slopes: seq<real>, positions: seq<real>)
    returns (result: Features)
    requires features.baselineSlope == features.wordSpacing == features.lineSpacing == features.leftMargin == 0.0
    ensures result == WithLayout(features, LineSamples(margins, gaps, slopes, positions))
  {
    result := features;
    if gaps != [] {
      result := result.(wordSpacing := Median(gaps));
    }
    if margins != [] {
      result := result.(leftMargin := Median(margins));
    }
    if slopes != [] {
      result := result.(baselineSlope := Median(slopes));
    }
    var lineGaps := Diff(positions);
    if |lineGaps| > 0 {
      result := result.(lineSpacing := Median(lineGaps));
    }
  }

  /** extract_graphological_features from the word contours on. */
  method ExtractGraphologicalFeatures(hasContours: bool, ink: seq<int>, contours: seq<WordContour>)
    returns (features: Features)
    ensures features == Extract(hasContours, ink, contours)
  {
    features := NoFeatures;
    if !hasContours {
      return;
    }
    if AnyInk(ink) {
      features := features.(pressure := Mean(ToReals(ink)));
    }
    var boxes, heights, angles := FilterWords(contours);
    if heights != [] {
      features := features.(letterSize := Median(heights));
    }
    if angles != [] {
      features := features.(slant := Median(angles));
    }
    ghost var unsorted := boxes;
    boxes := SortBy(RowMajor, boxes);
    if boxes == [] {
      assert unsorted == [] by {
        assert |multiset(boxes)| == |multiset(unsorted)|;
      }
      return;
    }
    var lines := GroupIntoLines(boxes);
    var margins, gaps, slopes, positions := SampleEachLine(lines);
    features := SetLayout(features, margins, gaps, slopes, positions);
  }
}
