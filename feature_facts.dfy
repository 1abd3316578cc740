// What extract_graphological_features guarantees about the features it
// returns: the degenerate cases, the ranges of each feature, the shape of the
// line grouping, and a few worked pages.
module FeatureFacts {
  import opened Stats
  import opened WordBoxes
  import opened Graphology

  // ---------------------------------------------------------------------
  // Degenerate pages

  /** Without any contour every feature is 0; without a word that survives the
      noise filter only the pressure can be non-zero, and the pressure is
      non-zero only when some ink pixel is. */
  lemma Degenerate(hasContours: bool, ink: seq<int>, contours: seq<WordContour>)
    ensures Extract(false, ink, contours) == NoFeatures
    ensures WordBoxesOf(contours) == [] ==>
              Extract(hasContours, ink, contours) == NoFeatures.(pressure := Extract(hasContours, ink, contours).pressure)
    ensures Extract(hasContours, ink, contours).pressure != 0.0 ==> hasContours && AnyInk(ink)
  {
    if WordBoxesOf(contours) == [] {
      NoWordsNoSlant(contours);
    }
  }

  /** Pressure is the mean grey level of the ink, so it stays within the
      grey-level range. */
  lemma PressureInRange(hasContours: bool, ink: seq<int>, contours: seq<WordContour>)
    requires forall i :: 0 <= i < |ink| ==> 0 <= ink[i] <= 255
    ensures 0.0 <= Extract(hasContours, ink, contours).pressure <= 255.0
  {
    if hasContours && AnyInk(ink) {
      MeanBounds(ToReals(ink), 0.0, 255.0);
    }
  }

  // ---------------------------------------------------------------------
  // Ranges of the features

  /** Letter size is 0 exactly when there is no word, and otherwise at least
      11, the smallest height the noise filter lets through. */
  lemma LetterSizeRange(hasContours: bool, ink: seq<int>, contours: seq<WordContour>)
    ensures Extract(hasContours, ink, contours).letterSize == 0.0 <==> !hasContours || WordBoxesOf(contours) == []
    ensures Extract(hasContours, ink, contours).letterSize == 0.0 || Extract(hasContours, ink, contours).letterSize >= 11.0
  {
    var boxes := WordBoxesOf(contours);
    if hasContours && boxes != [] {
      MedianBetween(Heights(boxes));
    }
  }

  /** Slant is a median of angles strictly within 45 degrees of horizontal. */
  lemma SlantRange(hasContours: bool, ink: seq<int>, contours: seq<WordContour>)
    ensures -45.0 < Extract(hasContours, ink, contours).slant < 45.0
  {
    var angles := SlantAngles(contours);
    if hasContours && angles != [] {
      MedianBetween(angles);
    }
  }

  /** Word spacing is 0 (no positive gap) or a median of positive integer
      gaps, hence at least 1. */
  lemma WordSpacingRange(hasContours: bool, ink: seq<int>, contours: seq<WordContour>)
    ensures Extract(hasContours, ink, contours).wordSpacing == 0.0 || Extract(hasContours, ink, contours).wordSpacing >= 1.0
  {
    var boxes := WordBoxesOf(contours);
    if hasContours && boxes != [] {
      var s := SampleLines(Lines(SortBy(RowMajor, boxes)));
      if s.wordGaps != [] {
        MedianBetween(s.wordGaps);
      }
    }
  }

  /** The lines the extractor samples, for a page with at least one word. */
  function PageLines(contours: seq<WordContour>): seq<seq<Box>>
    requires WordBoxesOf(contours) != []
  {
    var boxes := SortBy(RowMajor, WordBoxesOf(contours));
    assert |multiset(boxes)| == |multiset(WordBoxesOf(contours))|;
    Lines(boxes)
  }

  /** The four layout features of a page with a word, read off its lines. */
  lemma LayoutOfPage(hasContours: bool, ink: seq<int>, contours: seq<WordContour>)
    requires hasContours && WordBoxesOf(contours) != []
    ensures Extract(hasContours, ink, contours)
            == WithLayout(Extract(hasContours, ink, contours), SampleLines(PageLines(contours)))
  {
  }

  /** A baseline slope needs one line of at least two words, and a line
      spacing needs two such lines. */
  lemma BaselineFeaturesNeedLines(hasContours: bool, ink: seq<int>, contours: seq<WordContour>)
    ensures Extract(hasContours, ink, contours).baselineSlope != 0.0 ==>
              hasContours && WordBoxesOf(contours) != [] && MultiWordLines(PageLines(contours)) >= 1
    ensures Extract(hasContours, ink, contours).lineSpacing != 0.0 ==>
              hasContours && WordBoxesOf(contours) != [] && MultiWordLines(PageLines(contours)) >= 2
  {
    if hasContours && WordBoxesOf(contours) != [] {
      BaselinesOfLines(PageLines(contours));
    }
  }

  // ---------------------------------------------------------------------
  // The line grouping

  /** Lines that are pointwise permutations of each other flatten to
      permutations of each other. */
  lemma {:induction false} FlattenPermutation(a: seq<seq<Box>>, b: seq<seq<Box>>)
    requires |a| == |b|
    requires forall i :: 0 <= i < |a| ==> multiset(a[i]) == multiset(b[i])
    ensures multiset(Flatten(a)) == multiset(Flatten(b))
  {
    if a != [] {
      FlattenPermutation(a[1..], b[1..]);
      assert Flatten(a) == a[0] + Flatten(a[1..]);
      assert Flatten(b) == b[0] + Flatten(b[1..]);
    }
  }

  /** The grouping of the sorted words: before the per-line sort the lines
      are a greedy partition of the (y, x)-sorted words, in order; after it
      every line is non-empty, ordered by x and a rearrangement of its
      unsorted self; and together the lines hold every word exactly once. */
  lemma LinesStructure(boxes: seq<Box>)
    requires |boxes| > 0
    requires forall k :: 0 <= k < |boxes| ==> IsWord(boxes[k])
    ensures |SortBy(RowMajor, boxes)| == |boxes|
    ensures Greedy(RawLines(SortBy(RowMajor, boxes)))
    ensures Flatten(RawLines(SortBy(RowMajor, boxes))) == SortBy(RowMajor, boxes)
    ensures |Lines(SortBy(RowMajor, boxes))| == |RawLines(SortBy(RowMajor, boxes))|
    ensures forall i :: 0 <= i < |Lines(SortBy(RowMajor, boxes))| ==>
              |Lines(SortBy(RowMajor, boxes))[i]| > 0
              && SortedBy(ByX, Lines(SortBy(RowMajor, boxes))[i])
              && multiset(Lines(SortBy(RowMajor, boxes))[i]) == multiset(RawLines(SortBy(RowMajor, boxes))[i])
    ensures multiset(Flatten(Lines(SortBy(RowMajor, boxes)))) == multiset(boxes)
  {
    var bs := SortBy(RowMajor, boxes);
    assert |multiset(bs)| == |multiset(boxes)|;
    assert bs[0] in multiset(boxes);
    RawLinesGreedy(bs);
    var raw := RawLines(bs);
    var lines := Lines(bs);
    forall i | 0 <= i < |lines|
      ensures |lines[i]| > 0 && multiset(lines[i]) == multiset(raw[i])
    {
      assert |multiset(lines[i])| == |multiset(raw[i])|;
    }
    FlattenPermutation(lines, raw);
  }

  /** Every sampled line holds a word, and every word of it is a word of the
      page. */
  lemma PageLinesHoldPageWords(contours: seq<WordContour>)
    requires WordBoxesOf(contours) != []
    ensures |PageLines(contours)| > 0
    ensures forall i :: 0 <= i < |PageLines(contours)| ==> |PageLines(contours)[i]| > 0
    ensures forall i, j :: 0 <= i < |PageLines(contours)| && 0 <= j < |PageLines(contours)[i]| ==>
              PageLines(contours)[i][j] in WordBoxesOf(contours)
  {
    var boxes := WordBoxesOf(contours);
    var lines := PageLines(contours);
    LinesStructure(boxes);
    assert Flatten<Box>([]) == [];
    forall i, j | 0 <= i < |lines| && 0 <= j < |lines[i]|
      ensures lines[i][j] in boxes
    {
      InFlatten(lines, i, j);
      assert lines[i][j] in multiset(Flatten(lines));
    }
  }

  /** The median of the left margins of non-empty lines lies between the
      first x of two of the lines, lines a and b. */
  lemma MarginBetweenLineStarts(lines: seq<seq<Box>>) returns (a: nat, b: nat)
    requires |lines| > 0
    requires forall i :: 0 <= i < |lines| ==> |lines[i]| > 0
    ensures a < |lines| && b < |lines|
    ensures lines[a][0].x as real <= MedianOrZero(SampleLines(lines).leftMargins) <= lines[b][0].x as real
  {
    var margins := SampleLines(lines).leftMargins;
    LeftMarginsOfLines(lines);
    MedianBetween(margins);
    a, b :| 0 <= a < |margins| && 0 <= b < |margins| && margins[a] <= Median(margins) <= margins[b];
  }

  /** The left margin is the x of a word on the page, no further left than
      the leftmost word and no further right than the rightmost. */
  lemma LeftMarginIsWordX(hasContours: bool, ink: seq<int>, contours: seq<WordContour>)
    requires hasContours && WordBoxesOf(contours) != []
    ensures exists b1, b2 :: b1 in WordBoxesOf(contours) && b2 in WordBoxesOf(contours)
              && b1.x as real <= Extract(hasContours, ink, contours).leftMargin <= b2.x as real
  {
    LeftMarginOfPage(hasContours, ink, contours);
    var b1, b2 := PageMarginWords(contours);
    assert b1 in WordBoxesOf(contours) && b2 in WordBoxesOf(contours)
      && b1.x as real <= Extract(hasContours, ink, contours).leftMargin <= b2.x as real;
  }

  lemma LeftMarginOfPage(hasContours: bool, ink: seq<int>, contours: seq<WordContour>)
    requires hasContours && WordBoxesOf(contours) != []
    ensures Extract(hasContours, ink, contours).leftMargin == MedianOrZero(SampleLines(PageLines(contours)).leftMargins)
  {
    LayoutOfPage(hasContours, ink, contours);
  }

  /** Two words of the page whose x bound the median of the line starts. */
  lemma PageMarginWords(contours: seq<WordContour>) returns (b1: Box, b2: Box)
    requires WordBoxesOf(contours) != []
    ensures b1 in WordBoxesOf(contours) && b2 in WordBoxesOf(contours)
    ensures b1.x as real <= MedianOrZero(SampleLines(PageLines(contours)).leftMargins) <= b2.x as real
  {
    var lines := PageLines(contours);
    PageLinesHoldPageWords(contours);
    var a, b := MarginBetweenLineStarts(lines);
    b1, b2 := lines[a][0], lines[b][0];
  }

  // ---------------------------------------------------------------------
  // Worked pages

  /** The 0.7-height boundary: 20-pixel-high words 16 pixels apart fall on
      two lines (16 > 14), 14 pixels apart on one. */
  lemma LineBreakBoundary()
    ensures RawLines([Box(0, 0, 20, 20), Box(40, 16, 20, 20)]) == [[Box(0, 0, 20, 20)], [Box(40, 16, 20, 20)]]
    ensures RawLines([Box(0, 0, 20, 20), Box(40, 14, 20, 20)]) == [[Box(0, 0, 20, 20), Box(40, 14, 20, 20)]]
  {
    var a, b, c := Box(0, 0, 20, 20), Box(40, 16, 20, 20), Box(40, 14, 20, 20);
    assert [a, b][1..] == [b] && [a, c][1..] == [c] && [] + [a] == [a];
    assert !StartsNewLine(a, 0) && StartsNewLine(b, 0) && !StartsNewLine(c, 0);
    assert GroupFrom([a, b], [], 0) == GroupFrom([b], [a], 0);
    assert GroupFrom([b], [a], 0) == [[a]] + GroupFrom([], [b], 16);
    assert GroupFrom([a, c], [], 0) == GroupFrom([c], [a], 0);
    assert [c][1..] == [] && [a] + [c] == [a, c];
    assert GroupFrom([c], [a], 0) == GroupFrom([], [a, c], 0);
  }

  lemma SingleWordLines(b: Box)
    requires b.h >= 0
    ensures Lines(SortBy(RowMajor, [b])) == [[b]]
  {
    assert [b][1..] == [] && [] + [b] == [b];
    assert SortBy(RowMajor, [b]) == [b];
    assert GroupFrom([b], [], b.y) == GroupFrom([], [b], b.y);
    assert RawLines([b]) == [[b]];
    assert SortBy(ByX, [b]) == [b];
  }

  lemma SingleWordSamples(b: Box)
    requires b.h >= 0
    ensures SampleLines(Lines(SortBy(RowMajor, [b]))) == LineSamples([b.x as real], [], [], [])
  {
    SingleWordLines(b);
    assert LineGaps([b]) == [];
    assert [[b]][..0] == [];
  }

  /** A page with a single 60 by 60 word at x = 30 and one ink pixel of grey
      level 80. */
  lemma SingleWordPage()
    ensures Extract(true, [80], [WordContour(Box(30, 100, 60, 60), 0.0)])
            == Features(80.0, 60.0, 0.0, 0.0, 0.0, 0.0, 30.0)
  {
    var b := Box(30, 100, 60, 60);
    var cs := [WordContour(b, 0.0)];
    assert WordBoxesOf(cs) == [b];
    assert SlantAngles(cs) == [0.0];
    assert Heights([b]) == [60.0];
    assert ToReals([80]) == [80.0];
    assert Sum([80.0]) == 80.0;
    assert AnyInk([80]);
    var f := Extract(true, [80], cs);
    assert f.pressure == 80.0 && f.letterSize == 60.0 && f.slant == 0.0 by {
      MedianOfOne(60.0);
      MedianOfOne(0.0);
    }
    assert f == WithLayout(f, LineSamples([30.0], [], [], [])) by {
      SingleWordSamples(b);
      LayoutOfPage(true, [80], cs);
    }
    MedianOfOne(30.0);
  }

  /** Two lines of two 30 by 20 words each: the second word of each line sits
      2 pixels lower than the first, and the lines start 50 pixels apart. */
  lemma TwoLineGrouping()
    ensures RawLines([Box(10, 0, 30, 20), Box(60, 2, 30, 20), Box(10, 50, 30, 20), Box(60, 52, 30, 20)])
            == [[Box(10, 0, 30, 20), Box(60, 2, 30, 20)], [Box(10, 50, 30, 20), Box(60, 52, 30, 20)]]
  {
    var b0, b1, b2, b3 := Box(10, 0, 30, 20), Box(60, 2, 30, 20), Box(10, 50, 30, 20), Box(60, 52, 30, 20);
    var bs := [b0, b1, b2, b3];
    assert bs[1..] == [b1, b2, b3] && [b1, b2, b3][1..] == [b2, b3] && [b2, b3][1..] == [b3] && [b3][1..] == [];
    assert [] + [b0] == [b0] && [b0] + [b1] == [b0, b1] && [b2] + [b3] == [b2, b3];
    assert GroupFrom(bs, [], 0) == GroupFrom([b1, b2, b3], [b0], 0);
    assert GroupFrom([b1, b2, b3], [b0], 0) == GroupFrom([b2, b3], [b0, b1], 0);
    assert GroupFrom([b2, b3], [b0, b1], 0) == [[b0, b1]] + GroupFrom([b3], [b2], 50);
    assert GroupFrom([b3], [b2], 50) == GroupFrom([], [b2, b3], 50);
  }
}
