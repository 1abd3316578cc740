# Graphology features and personality profile

A Dafny model of the two core routines of `src/graphology_module.py`:

- `extract_graphological_features` turns a scanned handwriting page into seven
  numbers. A page without any contour gives seven zeros. Otherwise:
  - pen pressure is the mean grey level of all ink pixels, taken before any
    word filtering (0 when every ink pixel is 0);
  - letter size is the median height of the words that survive a noise filter;
  - slant is the median of those words' corrected rotated-rectangle angles
    that lie strictly within 45 degrees; a steeper word gives no sample.
  It then groups the words into lines and takes medians of per-line samples:
  - baseline slope, the median over lines of two or more words of the
    least-squares slope fitted through the word bottom-centres (x + w/2, y + h);
  - word spacing, the positive gaps between neighbouring words;
  - line spacing, the differences between the median bottoms of successive
    lines of two or more words (a one-word line in between is skipped);
  - left margin, the x of each line's first word.
- `get_personality_profile` maps the seven features through fixed threshold
  rules to six trait scores, clamped to [0.1, 1.0], and to a dictionary of
  descriptive texts.

Files and modules:

- `stats.dfy` (`Stats`): `np.mean`, `np.median` (averaging the two middle
  values of an even sample) and `np.diff`, over exact reals.
- `word_boxes.dfy` (`WordBoxes`): word boxes, the noise filter, the angle
  correction, Python's stable sort for the two keys used, and the greedy line
  grouping.
- `features.dfy` (`Graphology`):
  - the `Features` record;
  - the per-line samples, and the slope `np.polyfit(xs, ys, 1)` computes;
  - the specification function `Extract`;
  - the imperative extraction loops, each proved equal to its specification
    function.
- `feature_facts.dfy` (`FeatureFacts`): what the extractor guarantees, namely
  the degenerate pages; a range for pressure, letter size, slant and word
  spacing, and a bound on the left margin between the x of two words; only
  the conditions for a non-zero baseline slope or line spacing (line spacing
  can be negative); the structure of the line grouping; and worked pages.
- `personality.dfy` (`Personality`): the rule engine as a method over two maps,
  proved equal to the specification functions `Score`, `LabelsOf` and `Text`,
  and the properties of the profile.

Keys are datatypes rather than strings: `Trait` for the six score keys and
`Label` for the six descriptive keys. The string each one stands for is given
by `Name` and `Key`.

For slant 8, word spacing 5, letter size 30, pressure 100, slope 0.08 and
margin 50, the narrow-spacing rule (5 < 15, `src/graphology_module.py:148-150`)
raises sociability from 0.8 to 1.0 (`Personality.RisingRightSlantProfile`).

## Model

| member | source | states |
|---|---|---|
| Stats.Mean | src/graphology_module.py:27 | np.mean of a non-empty sample: its sum divided by its count |
| Stats.MeanBounds | src/graphology_module.py:26-27 | a mean of samples that all lie in [lo, hi] lies in [lo, hi] |
| Stats.Sort | src/graphology_module.py:53 | the order np.median sorts into is ascending and a permutation of the sample |
| Stats.SortedUnique | src/graphology_module.py:53 | two ascending sequences with the same multiset of values are equal, so the sorted sample is determined |
| Stats.Median | src/graphology_module.py:53-55 | np.median: the middle element of the sorted sample, or the average of the two middle elements for an even count |
| Stats.MedianBetween | src/graphology_module.py:108-118 | a median lies between two of the samples |
| Stats.MedianBounds | src/graphology_module.py:108-118 | a median of samples in [lo, hi] lies in [lo, hi] |
| Stats.MedianOfPermutation | src/graphology_module.py:109-111 | a median does not depend on the order of the samples |
| Stats.Diff | src/graphology_module.py:116 | np.diff has one element fewer than a non-empty input, and element i is s[i+1] - s[i] |
| WordBoxes.WordBoxesOf | src/graphology_module.py:38-41 | the kept boxes are words (w > 10 and h > 10); every word contour's box is kept; every kept box is some contour's box |
| WordBoxes.WordBoxesInOrder | src/graphology_module.py:38-41 | one kept box per word contour, in contour order: the k-th kept box is the box of the k-th contour that passes the filter |
| WordBoxes.Heights | src/graphology_module.py:42 | one height sample per kept box, equal to its h |
| WordBoxes.SlantAngles | src/graphology_module.py:44-50 | every slant sample lies strictly within 45 degrees; the samples are exactly the corrected angles (plus 90 when w < h) of the words that give one |
| WordBoxes.SlantAnglesInOrder | src/graphology_module.py:44-50 | one slant sample per contour that gives one, in contour order: the k-th sample is the corrected angle of the k-th such contour |
| WordBoxes.NoWordsNoSlant | src/graphology_module.py:40-50 | a page without words has no slant sample |
| WordBoxes.SortBy | src/graphology_module.py:58 | list.sort by (y, x) or by x yields a sequence ordered by that key and a permutation of the input |
| WordBoxes.SortByStable | src/graphology_module.py:58 | the sort is stable: boxes with equal keys keep their input order |
| WordBoxes.SortLines | src/graphology_module.py:75 | each line is replaced by its x-sorted arrangement, and the number of lines is unchanged |
| WordBoxes.StartsNewLine | src/graphology_module.py:74 | a box opens a new line when its y is more than 0.7 of its own height away from the current line's y |
| WordBoxes.GroupFrom | src/graphology_module.py:73-80 | the grouping loop from a given state: the remaining boxes, the current line and its y |
| WordBoxes.RawLines | src/graphology_module.py:69-80 | the grouping of the sorted boxes, starting from an empty line at the first box's y |
| WordBoxes.GroupFromPartition | src/graphology_module.py:73-80 | the grouping loop loses, duplicates and reorders no box: the lines concatenate to the current line followed by the remaining boxes |
| WordBoxes.GroupFromGreedy | src/graphology_module.py:73-80 | from a valid loop state, the loop yields greedy lines: no empty line, no member further than 0.7 h from its line's first y, and each new line opened by a box further than that |
| WordBoxes.RawLinesGreedy | src/graphology_module.py:69-80 | the lines of the sorted boxes form a greedy partition of them |
| WordBoxes.GreedyUnique | src/graphology_module.py:74 | two greedy partitions of the same boxes are equal, so the 0.7 h rule alone determines the lines |
| Graphology.LineGaps | src/graphology_module.py:92-97 | each word-spacing sample of a line is at least 1, and a line of n words gives at most n-1 samples |
| Graphology.Gap | src/graphology_module.py:93-95 | the gap between two neighbouring words: the left edge of the second minus the right edge (x + w) of the first, negative when they overlap |
| Graphology.LineGapsSound | src/graphology_module.py:92-97 | every sample is the gap between some adjacent pair of words (derived from LineGapsInOrder) |
| Graphology.LineGapsComplete | src/graphology_module.py:92-97 | every positive gap between adjacent words is a sample (derived from LineGapsInOrder and GapMaskMeaning) |
| Graphology.LineGapsInOrder | src/graphology_module.py:92-97 | one sample per positive adjacent gap, left to right: the k-th sample is the gap after the k-th word followed by a positive gap |
| Graphology.FitSlope | src/graphology_module.py:104 | the slope of np.polyfit(xs, ys, 1): the least-squares slope from the sums of x, x^2, x*y and y, or numpy's minimum-norm answer when all x coincide |
| Graphology.FitSlopeOfCollinear | src/graphology_module.py:101-105 | the polyfit slope through points on y = m x + c is m |
| Graphology.Centres | src/graphology_module.py:101 | points_x: one value per word, the x + w/2 of its bottom centre with true division, so an odd width gives a half |
| Graphology.Bottoms | src/graphology_module.py:102 | points_y: one value per word, the y + h of its bottom edge |
| Graphology.SampleLine | src/graphology_module.py:84-106 | one turn of the per-line loop: an empty line is skipped, any other line adds its first x, its positive gaps, and a slope and median bottom when it has two or more words |
| Graphology.SampleLineAppends | src/graphology_module.py:84-106 | one turn leaves the samples unchanged for an empty line and otherwise appends exactly the line's margin, its gaps, and its slope and position when it has two or more words |
| Graphology.SampleLines | src/graphology_module.py:84-106 | all word-gap samples are at least 1, and there are as many slopes as line positions |
| Graphology.LeftMarginsOfLines | src/graphology_module.py:88-89 | over non-empty lines there is one margin sample per line, the x of its first word |
| Graphology.BaselinesOfLines | src/graphology_module.py:103-106 | there is one slope and one position per line of two or more words (derived from BaselineSamplesInOrder) |
| Graphology.BaselineSamplesInOrder | src/graphology_module.py:99-106 | one slope and one position per line of two or more words, in line order: the k-th are the polyfit slope and the median bottom of the k-th such line |
| Graphology.LineSpacingSamples | src/graphology_module.py:106-116 | the i-th line-spacing sample is the median bottom of the (i+1)-th line of two or more words minus that of the i-th |
| Graphology.LeftMarginIsLeftmost | src/graphology_module.py:75-89 | over x-sorted lines, each margin sample is no greater than the x of any word of its line |
| Graphology.WordGapsFromLines | src/graphology_module.py:91-97 | each page word-gap sample is a sample of some line (derived from WordGapsConcat) |
| Graphology.WordGapsConcat | src/graphology_module.py:84-97 | the page's word-gap samples are the lines' samples, line after line, each in its own order |
| Graphology.WordGapsOfEveryLine | src/graphology_module.py:84-97 | every positive gap between adjacent words of any line is a page sample |
| Graphology.AnyInk | src/graphology_module.py:25-27 | ink_pixels.any(): some ink pixel has a non-zero grey level, the condition for recording a pressure |
| Graphology.MedianOrZero | src/graphology_module.py:108-118 | a layout feature: the median of its samples, or the 0 it was initialised with when there is none |
| Graphology.WithLayout | src/graphology_module.py:108-118 | the four layout features set from the per-line samples (line spacing from the differences of the positions), the other three features unchanged |
| Graphology.Extract | src/graphology_module.py:12-118 | the seven features of a page: all 0 without contours; otherwise pressure, letter size and slant, and the four layout medians when there is a word |
| Graphology.FilterWords | src/graphology_module.py:37-50 | the contour loop yields the word boxes, their heights and the slant samples of the specification |
| Graphology.GroupIntoLines | src/graphology_module.py:68-80 | the grouping loop yields the specification's lines, each x-sorted |
| Graphology.WordGapsOf | src/graphology_module.py:92-97 | the gap loop of one line yields the line's word-gap samples |
| Graphology.SampleEachLine | src/graphology_module.py:84-106 | the per-line loop yields the specification's margins, gaps, slopes and positions |
| Graphology.SetLayout | src/graphology_module.py:108-118 | each layout feature becomes the median of its samples, or stays 0 when there is none |
| Graphology.ExtractGraphologicalFeatures | src/graphology_module.py:12-118 | the extraction returns exactly the features of the specification Extract, on every input |
| FeatureFacts.Degenerate | src/graphology_module.py:12-66 | no contour gives all seven features 0; no word leaves every feature but pressure at 0; pressure is non-zero only with contours and some non-zero ink |
| FeatureFacts.PressureInRange | src/graphology_module.py:25-27 | with grey levels in [0, 255] the pressure is in [0, 255] |
| FeatureFacts.LetterSizeRange | src/graphology_module.py:40-53 | letter size is 0 exactly when there is no contour or no word, and otherwise at least 11 |
| FeatureFacts.SlantRange | src/graphology_module.py:44-55 | slant lies strictly between -45 and 45 |
| FeatureFacts.WordSpacingRange | src/graphology_module.py:95-109 | word spacing is 0 or at least 1 |
| FeatureFacts.BaselineFeaturesNeedLines | src/graphology_module.py:103-118 | a non-zero baseline slope needs a line of two or more words; a non-zero line spacing needs two such lines |
| FeatureFacts.LinesStructure | src/graphology_module.py:58-80 | before the per-line sort the lines are a greedy partition of the sorted words; after it each line is non-empty, x-sorted and a rearrangement of itself; together the lines hold every word exactly once |
| FeatureFacts.PageLinesHoldPageWords | src/graphology_module.py:69-89 | a page with a word has lines, none empty, and every box on them is a word of the page |
| FeatureFacts.MarginBetweenLineStarts | src/graphology_module.py:110-111 | the left margin lies between the first x of two of the lines |
| FeatureFacts.LeftMarginIsWordX | src/graphology_module.py:89-111 | the left margin lies between the x of two words of the page |
| FeatureFacts.LineBreakBoundary | src/graphology_module.py:74 | 20-pixel words 16 pixels apart fall on two lines, and 14 pixels apart on one |
| FeatureFacts.SingleWordPage | src/graphology_module.py:12-118 | one 60-by-60 word at x 30 with ink 80 gives pressure 80, letter size 60, left margin 30 and 0 for the rest |
| FeatureFacts.TwoLineGrouping | src/graphology_module.py:69-80 | four words at y 0, 2, 50 and 52 group into two lines of two, in reading order |
| Personality.TraitOrderComplete | src/graphology_module.py:128-131 | the score dictionary holds all six traits, and the clamp loop visits each |
| Personality.RawScore | src/graphology_module.py:134-198 | each trait's score before the clamp, rule group by rule group |
| Personality.LabelsOf | src/graphology_module.py:134-198 | the labels the rules assign: four always, social type and planning under their conditions |
| Personality.Text | src/graphology_module.py:134-198 | the text each rule stores under its label |
| Personality.Clip | src/graphology_module.py:202 | np.clip lands in [lo, hi]: it keeps an in-range value and sends values below to lo and values above to hi |
| Personality.Score | src/graphology_module.py:200-202 | every final score lies in [0.1, 1.0] |
| Personality.ClampInactive | src/graphology_module.py:134-202 | every rule already yields a score in [0.1, 1.0], so the clamp changes nothing |
| Personality.DisciplineValues | src/graphology_module.py:183-190 | discipline is one of 0.3, 0.5, 0.8 and 1.0; each value holds exactly for its combination of straight baseline and upright slant |
| Personality.SociabilityValues | src/graphology_module.py:134-150 | sociability is one of 0.1, 0.2, 0.3, 0.4, 0.6, 0.7, 0.8 and 1.0 |
| Personality.SociabilityRules | src/graphology_module.py:134-150 | after group 1 the sociability score and the outlook and social-type texts are those of the rules, and all else is unchanged |
| Personality.FocusRules | src/graphology_module.py:152-160 | after group 2 the focus score and text are those of the rules, and all else is unchanged |
| Personality.IntensityRules | src/graphology_module.py:162-170 | after group 3 the intensity score and text are those of the rules, and all else is unchanged |
| Personality.OptimismRules | src/graphology_module.py:172-181 | after group 4 the optimism score and mood text are those of the rules, and all else is unchanged |
| Personality.DisciplineRules | src/graphology_module.py:183-190 | after group 5 the discipline score is that of the rules, and all else is unchanged |
| Personality.SpontaneityRules | src/graphology_module.py:192-198 | after group 6 the spontaneity score and planning text are those of the rules, and all else is unchanged |
| Personality.ClampScores | src/graphology_module.py:200-202 | the clamp loop leaves each of the six traits at its clamped score |
| Personality.GetPersonalityProfile | src/graphology_module.py:123-204 | the six scores are the clamped rule scores; the texts are keyed exactly by the labels the rules assign and carry their texts |
| Personality.LabelPresence | src/graphology_module.py:134-198 | outlook, focus, intensity and mood are always present; social type exactly when spacing is wider than the letter size or narrower than half of it; planning exactly when the margin is above 40 or below 20 |
| Personality.SixKeys | src/graphology_module.py:128-131 | six traits with pairwise distinct names, and pairwise distinct label keys |
| Personality.RisingRightSlantProfile | src/graphology_module.py:134-198 | slant 8, spacing 5, size 30, pressure 100, slope 0.08 and margin 50 give scores 1.0, 0.5, 0.8, 0.8, 0.3 and 0.2 and all six labels |
| Personality.BlankPageProfile | src/graphology_module.py:12-21 | a page without contours scores 0.4, 0.9, 0.8, 0.5, 1.0 and 0.9 and has every label except the social type |

## Left out

- The OpenCV calls are left out. These are `findContours`, the dilation with a 5-by-5 kernel, `boundingRect` and `minAreaRect` (lines 18, 33-35, 39 and 45). The model takes their results as inputs instead:
  - whether the binary image has any contour;
  - the grey levels of the ink pixels;
  - each word contour's bounding box and rotated-rectangle angle.
- The `lines` parameter of `extract_graphological_features` is never read by the function, so it is not modelled.
- `create_spider_chart` is not part of this model. It only draws a chart with matplotlib.
- The preprocessing and handwriting-recognition modules and the application front end are not part of this model.
- All arithmetic is over exact reals, not 64-bit floats.
- WordBoxes.StartsNewLine: the float product `h * 0.7` is not exact for every height (90 * 0.7 is 62.99999999999999). At such a height, a y difference of exactly 0.7 h starts a new line in the source but not in the model.
- Personality.RawScore: in floats, 0.8 - 0.1 is 0.7000000000000001, 0.4 + 0.2 is 0.6000000000000001 and 0.4 - 0.1 is 0.30000000000000004. The model's scores are the exact 0.7, 0.6 and 0.3 (the last is the upright-and-wide-spacing sociability in Personality.SociabilityValues).
- Graphology.FitSlope: np.polyfit solves its least-squares problem in floating point. The model is the exact least-squares slope.
  - When all x coincide at c, the model uses numpy's minimum-norm answer, mean(ys) / (2c).
  - When c is 0, numpy divides by a zero column scale. The model returns 0 there. Word centres have x + w/2 with w > 10, so this case needs a negative x and does not arise on an image.
- Graphology.FitSlopeOfCollinear: the recovery of the slope of collinear points is proved only when the normal equations are non-degenerate, that is, when the x values are not all equal.
- Python dictionaries keep insertion order; the maps of the model do not. The keys are the `Trait` and `Label` datatypes rather than strings, with `Name` and `Key` giving the strings.
