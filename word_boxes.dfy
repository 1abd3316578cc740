// Word bounding boxes of graphology_module.extract_graphological_features:
// the noise filter, the slant-angle correction, the (y, x) reading-order sort
// and the greedy grouping of words into lines.
module WordBoxes {

  /** An axis-aligned bounding box in pixels, origin top-left. */
  datatype Box = Box(x: int, y: int, w: int, h: int)

  /** A word contour as the extractor reads it: its bounding box and the raw
      angle (degrees) of its minimum-area rotated rectangle. */
  datatype WordContour = WordContour(box: Box, angle: real)

  function Abs(r: real): real
  {
    if r < 0.0 then -r else r
  }

  // ---------------------------------------------------------------------
  // Noise filter and slant samples

  /** Only boxes wider and taller than 10 pixels are taken as words. */
  predicate IsWord(b: Box)
  {
    b.w > 10 && b.h > 10
  }

  /** A box taller than wide has its rotated-rectangle angle shifted by 90. */
  function NormalizedAngle(c: WordContour): real
  {
    if c.box.w < c.box.h then 90.0 + c.angle else c.angle
  }

  /** A word contributes a slant sample when its corrected angle is within 45
      degrees of horizontal. */
  predicate GivesSlant(c: WordContour)
  {
    IsWord(c.box) && Abs(NormalizedAngle(c)) < 45.0
  }

  /** The boxes that pass the noise filter, in contour order. */
  function WordBoxesOf(cs: seq<WordContour>): (bs: seq<Box>)
    ensures |bs| <= |cs|
    ensures forall k :: 0 <= k < |bs| ==> IsWord(bs[k])
    ensures forall i :: 0 <= i < |cs| && IsWord(cs[i].box) ==> cs[i].box in bs
    ensures forall k :: 0 <= k < |bs| ==> exists i :: 0 <= i < |cs| && cs[i].box == bs[k]
  {
    if cs == [] then []
    else
      var prefix := cs[..|cs| - 1];
      var last := cs[|cs| - 1];
      var r := WordBoxesOf(prefix);
      assert forall i :: 0 <= i < |prefix| ==> prefix[i] == cs[i];
      r + (if IsWord(last.box) then [last.box] else [])
  }

  /** The heights of the given boxes, the letter-size samples. */
  function Heights(bs: seq<Box>): (hs: seq<real>)
    ensures |hs| == |bs|
    ensures forall k :: 0 <= k < |bs| ==> hs[k] == bs[k].h as real
  {
    if bs == [] then [] else Heights(bs[..|bs| - 1]) + [bs[|bs| - 1].h as real]
  }

  /** The corrected angles of the words that give a slant sample, in order. */
  function SlantAngles(cs: seq<WordContour>): (as_: seq<real>)
    ensures forall k :: 0 <= k < |as_| ==> -45.0 < as_[k] < 45.0
    ensures forall i :: 0 <= i < |cs| && GivesSlant(cs[i]) ==> NormalizedAngle(cs[i]) in as_
    ensures forall k :: 0 <= k < |as_| ==>
              exists i :: 0 <= i < |cs| && GivesSlant(cs[i]) && as_[k] == NormalizedAngle(cs[i])
  {
    if cs == [] then []
    else
      var prefix := cs[..|cs| - 1];
      var last := cs[|cs| - 1];
      var r := SlantAngles(prefix);
      assert forall i :: 0 <= i < |prefix| ==> prefix[i] == cs[i];
      r + (if GivesSlant(last) then [NormalizedAngle(last)] else [])
  }

  /** What one more contour adds to the word boxes and the slant samples. */
  lemma FilterStep(cs: seq<WordContour>, i: nat)
    requires i < |cs|
    ensures WordBoxesOf(cs[..i + 1]) == WordBoxesOf(cs[..i]) + (if IsWord(cs[i].box) then [cs[i].box] else [])
    ensures SlantAngles(cs[..i + 1]) == SlantAngles(cs[..i]) + (if GivesSlant(cs[i]) then [NormalizedAngle(cs[i])] else [])
  {
    assert cs[..i + 1][..i] == cs[..i];
  }

  lemma HeightsSnoc(bs: seq<Box>, b: Box)
    ensures Heights(bs + [b]) == Heights(bs) + [b.h as real]
  {
    assert (bs + [b])[..|bs|] == bs;
  }

  /** The positions i with mask[i], in increasing order: the indices a filter
      over a sequence keeps. Increasing, complete and within the mask, they are
      the only such enumeration. */
  function Marked(mask: seq<bool>): (idx: seq<nat>)
    ensures forall k :: 0 <= k < |idx| ==> idx[k] < |mask| && mask[idx[k]]
    ensures forall k, l :: 0 <= k < l < |idx| ==> idx[k] < idx[l]
    ensures forall i :: 0 <= i < |mask| && mask[i] ==> i in idx
  {
    if mask == [] then []
    else
      var n := |mask| - 1;
      var r := Marked(mask[..n]);
      assert forall i :: 0 <= i < n ==> mask[..n][i] == mask[i];
      r + (if mask[n] then [n] else [])
  }

  lemma MarkedSnoc(m: seq<bool>, b: bool)
    ensures Marked(m + [b]) == Marked(m) + (if b then [|m|] else [])
  {
    assert (m + [b])[..|m|] == m;
  }

  /** Which contours pass the noise filter. */
  function WordMask(cs: seq<WordContour>): (m: seq<bool>)
    ensures |m| == |cs|
  {
    if cs == [] then []
    else
      var n := |cs| - 1;
      WordMask(cs[..n]) + [IsWord(cs[n].box)]
  }

  /** Which contours give a slant sample. */
  function SlantMask(cs: seq<WordContour>): (m: seq<bool>)
    ensures |m| == |cs|
  {
    if cs == [] then []
    else
      var n := |cs| - 1;
      SlantMask(cs[..n]) + [GivesSlant(cs[n])]
  }

  lemma {:induction false} WordMaskMeaning(cs: seq<WordContour>)
    ensures forall i :: 0 <= i < |cs| ==> WordMask(cs)[i] == IsWord(cs[i].box)
  {
    if cs != [] {
      var n := |cs| - 1;
      WordMaskMeaning(cs[..n]);
      assert forall i :: 0 <= i < n ==> cs[..n][i] == cs[i];
    }
  }

  lemma {:induction false} SlantMaskMeaning(cs: seq<WordContour>)
    ensures forall i :: 0 <= i < |cs| ==> SlantMask(cs)[i] == GivesSlant(cs[i])
  {
    if cs != [] {
      var n := |cs| - 1;
      SlantMaskMeaning(cs[..n]);
      assert forall i :: 0 <= i < n ==> cs[..n][i] == cs[i];
    }
  }

  /** ys[k] is f of the idx[k]-th element of xs, for every k. */
  predicate PickedBy<T, U(==)>(xs: seq<T>, idx: seq<nat>, ys: seq<U>, f: T -> U)
  {
    |ys| == |idx| && forall k :: 0 <= k < |ys| ==> idx[k] < |xs| && ys[k] == f(xs[idx[k]])
  }

  function BoxOf(c: WordContour): Box
  {
    c.box
  }

  /** One more element of xs, kept (with its image y) or not. */
  lemma PickedBySnoc<T, U>(xs: seq<T>, idx: seq<nat>, ys: seq<U>, keep: bool, y: U, f: T -> U)
    requires |xs| > 0 && PickedBy(xs[..|xs| - 1], idx, ys, f)
    requires keep ==> y == f(xs[|xs| - 1])
    ensures PickedBy(xs, idx + (if keep then [|xs| - 1] else []), ys + (if keep then [y] else []), f)
  {
    var n := |xs| - 1;
    var idx', ys' := idx + (if keep then [n] else []), ys + (if keep then [y] else []);
    forall k | 0 <= k < |ys'|
      ensures idx'[k] < |xs| && ys'[k] == f(xs[idx'[k]])
    {
      if k < |ys| {
        assert idx'[k] == idx[k] && ys'[k] == ys[k] && xs[..n][idx[k]] == xs[idx[k]];
      } else {
        assert idx'[k] == n && ys'[k] == y;
      }
    }
  }

  /** The filter keeps one box per word contour, in contour order: the k-th
      kept box is the box of the k-th contour that is a word. */
  lemma {:induction false} WordBoxesInOrder(cs: seq<WordContour>)
    ensures |WordBoxesOf(cs)| == |Marked(WordMask(cs))|
    ensures forall k :: 0 <= k < |WordBoxesOf(cs)| ==> WordBoxesOf(cs)[k] == cs[Marked(WordMask(cs))[k]].box
  {
    WordBoxesPicked(cs);
  }

  lemma {:induction false} WordBoxesPicked(cs: seq<WordContour>)
    ensures PickedBy(cs, Marked(WordMask(cs)), WordBoxesOf(cs), BoxOf)
  {
    if cs != [] {
      var n := |cs| - 1;
      var p := cs[..n];
      var b := IsWord(cs[n].box);
      WordBoxesPicked(p);
      PickedBySnoc(cs, Marked(WordMask(p)), WordBoxesOf(p), b, cs[n].box, BoxOf);
      assert Marked(WordMask(cs)) == Marked(WordMask(p)) + (if b then [n] else []) by {
        assert WordMask(cs) == WordMask(p) + [b];
        MarkedSnoc(WordMask(p), b);
      }
      assert WordBoxesOf(cs) == WordBoxesOf(p) + (if b then [cs[n].box] else []) by {
        FilterStep(cs, n);
        assert cs[..n + 1] == cs;
      }
    }
  }

  /** One slant sample per contour that gives one, in contour order: the k-th
      sample is the corrected angle of the k-th such contour. */
  lemma {:induction false} SlantAnglesInOrder(cs: seq<WordContour>)
    ensures |SlantAngles(cs)| == |Marked(SlantMask(cs))|
    ensures forall k :: 0 <= k < |SlantAngles(cs)| ==>
              SlantAngles(cs)[k] == NormalizedAngle(cs[Marked(SlantMask(cs))[k]])
  {
    SlantAnglesPicked(cs);
  }

  lemma {:induction false} SlantAnglesPicked(cs: seq<WordContour>)
    ensures PickedBy(cs, Marked(SlantMask(cs)), SlantAngles(cs), NormalizedAngle)
  {
    if cs != [] {
      var n := |cs| - 1;
      var p := cs[..n];
      var b := GivesSlant(cs[n]);
      SlantAnglesPicked(p);
      PickedBySnoc(cs, Marked(SlantMask(p)), SlantAngles(p), b, NormalizedAngle(cs[n]), NormalizedAngle);
      assert Marked(SlantMask(cs)) == Marked(SlantMask(p)) + (if b then [n] else []) by {
        assert SlantMask(cs) == SlantMask(p) + [b];
        MarkedSnoc(SlantMask(p), b);
      }
      assert SlantAngles(cs) == SlantAngles(p) + (if b then [NormalizedAngle(cs[n])] else []) by {
        FilterStep(cs, n);
        assert cs[..n + 1] == cs;
      }
    }
  }

  /** Without a word there is no slant sample either. */
  lemma NoWordsNoSlant(cs: seq<WordContour>)
    requires WordBoxesOf(cs) == []
    ensures SlantAngles(cs) == []
  {
  }

  // ---------------------------------------------------------------------
  // Python's stable sort, for the two keys the extractor uses

  /** The sort keys: (y, x) for reading order, x alone within a line. */
  datatype SortKey = RowMajor | ByX

  predicate Le(k: SortKey, a: Box, b: Box)
  {
    match k
    case RowMajor => a.y < b.y || (a.y == b.y && a.x <= b.x)
    case ByX => a.x <= b.x
  }

  predicate SortedBy(k: SortKey, s: seq<Box>)
  {
    forall i, j :: 0 <= i < j < |s| ==> Le(k, s[i], s[j])
  }

  /** Inserts b before the first element not below it, so that b stays ahead
      of the elements with an equal key that followed it in the input. */
  function InsertBy(k: SortKey, b: Box, s: seq<Box>): (r: seq<Box>)
    requires SortedBy(k, s)
    ensures SortedBy(k, r)
    ensures multiset(r) == multiset(s) + multiset{b}
  {
    if s == [] || Le(k, b, s[0]) then
      [b] + s
    else
      var t := InsertBy(k, b, s[1..]);
      HeadBelowInsert(k, b, s, t);
      assert s == [s[0]] + s[1..];
      [s[0]] + t
  }

  /** The head of s stays below everything the insertion into s's tail yields. */
  lemma HeadBelowInsert(k: SortKey, b: Box, s: seq<Box>, t: seq<Box>)
    requires SortedBy(k, s) && s != [] && !Le(k, b, s[0])
    requires multiset(t) == multiset(s[1..]) + multiset{b}
    ensures forall j :: 0 <= j < |t| ==> Le(k, s[0], t[j])
  {
    forall j | 0 <= j < |t| ensures Le(k, s[0], t[j]) {
      assert t[j] in multiset(t);
      if t[j] != b {
        assert t[j] in multiset(s[1..]);
        var i :| 0 <= i < |s[1..]| && s[1..][i] == t[j];
        assert s[i + 1] == t[j];
      }
    }
  }

  /** list.sort / sorted with the given key. */
  function SortBy(k: SortKey, s: seq<Box>): (r: seq<Box>)
    ensures SortedBy(k, r)
    ensures multiset(r) == multiset(s)
  {
    if s == [] then []
    else
      assert s == [s[0]] + s[1..];
      InsertBy(k, s[0], SortBy(k, s[1..]))
  }

  /** The elements of s whose key equals that of ref, in their order in s. */
  function KeyClass(k: SortKey, s: seq<Box>, ref: Box): seq<Box>
  {
    if s == [] then []
    else if Le(k, s[0], ref) && Le(k, ref, s[0]) then [s[0]] + KeyClass(k, s[1..], ref)
    else KeyClass(k, s[1..], ref)
  }

  lemma {:induction false} InsertByStable(k: SortKey, b: Box, s: seq<Box>, ref: Box)
    requires SortedBy(k, s)
    ensures KeyClass(k, InsertBy(k, b, s), ref)
         == (if Le(k, b, ref) && Le(k, ref, b) then [b] else []) + KeyClass(k, s, ref)
  {
    if s == [] || Le(k, b, s[0]) {
      assert InsertBy(k, b, s) == [b] + s;
      assert ([b] + s)[1..] == s;
    } else {
      var t := InsertBy(k, b, s[1..]);
      assert InsertBy(k, b, s) == [s[0]] + t;
      assert ([s[0]] + t)[1..] == t;
      InsertByStable(k, b, s[1..], ref);
    }
  }

  /** The sort is stable: boxes with equal keys keep their input order. */
  lemma {:induction false} SortByStable(k: SortKey, s: seq<Box>, ref: Box)
    ensures KeyClass(k, SortBy(k, s), ref) == KeyClass(k, s, ref)
  {
    if s != [] {
      SortByStable(k, s[1..], ref);
      InsertByStable(k, s[0], SortBy(k, s[1..]), ref);
    }
  }

  // ---------------------------------------------------------------------
  // Greedy grouping into lines

  /** The line-break rule: a box opens a new line when its y lies further
      than 0.7 of its own height from the y of the current line's first box. */
  predicate StartsNewLine(b: Box, lineY: int)
  {
    Abs((b.y - lineY) as real) > 0.7 * (b.h as real)
  }

  /** The grouping loop, from the state (current line, its reference y) on. */
  function GroupFrom(rest: seq<Box>, current: seq<Box>, lineY: int): seq<seq<Box>>
    decreases |rest|
  {
    if rest == [] then [current]
    else if StartsNewLine(rest[0], lineY) then [current] + GroupFrom(rest[1..], [rest[0]], rest[0].y)
    else GroupFrom(rest[1..], current + [rest[0]], lineY)
  }

  /** The lines of a non-empty box list before each is re-sorted by x. */
  function RawLines(bs: seq<Box>): seq<seq<Box>>
    requires |bs| > 0
  {
    GroupFrom(bs, [], bs[0].y)
  }

  /** Each line of the grouping, re-sorted left to right. */
  function SortLines(ls: seq<seq<Box>>): (r: seq<seq<Box>>)
    ensures |r| == |ls|
    ensures forall i :: 0 <= i < |ls| ==> r[i] == SortBy(ByX, ls[i])
  {
    if ls == [] then [] else SortLines(ls[..|ls| - 1]) + [SortBy(ByX, ls[|ls| - 1])]
  }

  /** The lines of words, top to bottom, each ordered left to right. */
  function Lines(bs: seq<Box>): seq<seq<Box>>
    requires |bs| > 0
  {
    SortLines(RawLines(bs))
  }

  /** The concatenation of a sequence of sequences. */
  function Flatten<T>(ls: seq<seq<T>>): seq<T>
  {
    if ls == [] then [] else ls[0] + Flatten(ls[1..])
  }

  lemma InFlatten<T>(ls: seq<seq<T>>, i: int, j: int)
    requires 0 <= i < |ls| && 0 <= j < |ls[i]|
    ensures ls[i][j] in Flatten(ls)
    decreases i
  {
    assert Flatten(ls) == ls[0] + Flatten(ls[1..]);
    if i > 0 {
      InFlatten(ls[1..], i - 1, j);
    }
  }

  /** Every element of a flattening comes from one of the parts. */
  lemma {:induction false} FromFlatten<T>(ls: seq<seq<T>>, x: T) returns (i: nat)
    requires x in Flatten(ls)
    ensures i < |ls| && x in ls[i]
  {
    if x in ls[0] {
      i := 0;
    } else {
      var j := FromFlatten(ls[1..], x);
      i := j + 1;
    }
  }

  /** Flattening after appending one more sequence appends its elements. */
  lemma {:induction false} FlattenSnoc<T>(ls: seq<seq<T>>, x: seq<T>)
    ensures Flatten(ls + [x]) == Flatten(ls) + x
  {
    if ls == [] {
      assert [] + [x] == [x];
      assert Flatten([x]) == x + Flatten([]);
    } else {
      assert (ls + [x])[1..] == ls[1..] + [x];
      FlattenSnoc(ls[1..], x);
    }
  }

  /** The shape the greedy rule gives a list of lines: no line is empty, no
      box after the first of a line is more than 0.7 of its height away from
      that first box's y, and every line after the first opens with a box
      that is more than 0.7 of its height away from the previous line's first y. */
  predicate Greedy(ls: seq<seq<Box>>)
  {
    && (forall i :: 0 <= i < |ls| ==> |ls[i]| > 0)
    && (forall i, j :: 0 <= i < |ls| && 0 < j < |ls[i]| ==> !StartsNewLine(ls[i][j], ls[i][0].y))
    && (forall i :: 0 < i < |ls| ==> StartsNewLine(ls[i][0], ls[i - 1][0].y))
  }

  /** The grouping loop neither drops, duplicates nor reorders boxes. */
  lemma {:induction false} GroupFromPartition(rest: seq<Box>, current: seq<Box>, lineY: int)
    ensures Flatten(GroupFrom(rest, current, lineY)) == current + rest
    decreases |rest|
  {
    if rest == [] {
      assert Flatten([current]) == current + Flatten([]);
    } else if StartsNewLine(rest[0], lineY) {
      var tail := GroupFrom(rest[1..], [rest[0]], rest[0].y);
      GroupFromPartition(rest[1..], [rest[0]], rest[0].y);
      assert ([current] + tail)[1..] == tail;
      assert [rest[0]] + rest[1..] == rest;
    } else {
      GroupFromPartition(rest[1..], current + [rest[0]], lineY);
      assert current + [rest[0]] + rest[1..] == current + rest;
    }
  }

  /** From a state that already satisfies the rule, the loop yields greedy lines
      whose first line extends the current one. */
  lemma {:induction false} GroupFromGreedy(rest: seq<Box>, current: seq<Box>, lineY: int)
    requires |current| > 0 && current[0].y == lineY
    requires forall j :: 0 < j < |current| ==> !StartsNewLine(current[j], lineY)
    ensures Greedy(GroupFrom(rest, current, lineY))
    ensures |GroupFrom(rest, current, lineY)| > 0
    ensures GroupFrom(rest, current, lineY)[0][0] == current[0]
    decreases |rest|
  {
    if rest != [] {
      if StartsNewLine(rest[0], lineY) {
        var tail := GroupFrom(rest[1..], [rest[0]], rest[0].y);
        GroupFromGreedy(rest[1..], [rest[0]], rest[0].y);
        var ls := [current] + tail;
        assert forall i :: 0 < i < |ls| ==> ls[i] == tail[i - 1];
      } else {
        GroupFromGreedy(rest[1..], current + [rest[0]], lineY);
      }
    }
  }

  /** The grouping of a non-empty box list whose first box has a non-negative
      height is a greedy partition of it. */
  lemma RawLinesGreedy(bs: seq<Box>)
    requires |bs| > 0 && bs[0].h >= 0
    ensures Greedy(RawLines(bs))
    ensures Flatten(RawLines(bs)) == bs
  {
    assert !StartsNewLine(bs[0], bs[0].y);
    assert [] + [bs[0]] == [bs[0]];
    assert RawLines(bs) == GroupFrom(bs[1..], [bs[0]], bs[0].y);
    GroupFromGreedy(bs[1..], [bs[0]], bs[0].y);
    GroupFromPartition(bs, [], bs[0].y);
  }

  lemma GreedyTail(ls: seq<seq<Box>>)
    requires Greedy(ls) && |ls| > 0
    ensures Greedy(ls[1..])
  {
    var t := ls[1..];
    assert forall i :: 0 <= i < |t| ==> t[i] == ls[i + 1];
    assert forall i :: 0 < i < |t| ==> StartsNewLine(t[i][0], t[i - 1][0].y) by {
      forall i | 0 < i < |t| ensures StartsNewLine(t[i][0], t[i - 1][0].y) {
        assert t[i] == ls[i + 1] && t[i - 1] == ls[i];
      }
    }
  }

  /** The greedy rule determines the lines: two greedy partitions of the same
      box sequence are equal. Together with RawLinesGreedy, a box opens a new
      line exactly when it is more than 0.7 of its height away from the current
      line's first box. */
  lemma {:induction false} GreedyUnique(l1: seq<seq<Box>>, l2: seq<seq<Box>>)
    requires Greedy(l1) && Greedy(l2)
    requires Flatten(l1) == Flatten(l2)
    ensures l1 == l2
    decreases |l1|
  {
    if l1 == [] || l2 == [] {
    } else {
      var f := Flatten(l1);
      var a, b := l1[0], l2[0];
      assert f == a + Flatten(l1[1..]);
      assert f == b + Flatten(l2[1..]);
      assert a[0] == f[0] == b[0];
      if |a| < |b| {
        FirstOfNextLine(l1);
        assert false;
      } else if |b| < |a| {
        FirstOfNextLine(l2);
        assert false;
      }
      assert a == f[..|a|] == b;
      assert Flatten(l1[1..]) == f[|a|..] == Flatten(l2[1..]);
      GreedyTail(l1);
      GreedyTail(l2);
      GreedyUnique(l1[1..], l2[1..]);
      assert l1 == [a] + l1[1..] && l2 == [b] + l2[1..];
    }
  }

  /** In a greedy partition, the box right after the first line (if any) opens
      the second line. */
  lemma FirstOfNextLine(ls: seq<seq<Box>>)
    requires Greedy(ls) && |ls| > 0
    ensures |Flatten(ls)| > |ls[0]| ==>
              |ls| > 1 && Flatten(ls)[|ls[0]|] == ls[1][0] && StartsNewLine(ls[1][0], ls[0][0].y)
  {
    assert Flatten(ls) == ls[0] + Flatten(ls[1..]);
    if |Flatten(ls)| > |ls[0]| {
      assert Flatten(ls[1..]) != [];
      assert |ls| > 1;
      assert Flatten(ls[1..]) == ls[1] + Flatten(ls[2..]);
    }
  }
}
