// graphology_module.get_personality_profile: the threshold rules that turn the
// seven features into six trait scores in [0.1, 1.0] and a set of
// descriptive labels.
module Personality {
  import opened Graphology
  import opened WordBoxes

  // ---------------------------------------------------------------------
  // Traits and their scores

  datatype Trait = Sociability | Focus | Intensity | Optimism | Discipline | Spontaneity

  /** The key a trait's score is stored under. */
  function Name(t: Trait): string
  {
    match t
    case Sociability => "Sociability"
    case Focus => "Focus"
    case Intensity => "Intensity"
    case Optimism => "Optimism"
    case Discipline => "Discipline"
    case Spontaneity => "Spontaneity"
  }

  /** The traits in the order the score dictionary is built, which is the
      order the final clamp visits them in. */
  const TraitOrder: seq<Trait> := [Sociability, Focus, Intensity, Optimism, Discipline, Spontaneity]

  const AllTraits: set<Trait> := {Sociability, Focus, Intensity, Optimism, Discipline, Spontaneity}

  /** The clamp visits every trait, and every trait has a score. */
  lemma TraitOrderComplete()
    ensures forall t :: t in TraitOrder && t in AllTraits
  {
    forall t ensures t in TraitOrder && t in AllTraits {
      var i := match t
        case Sociability => 0
        case Focus => 1
        case Intensity => 2
        case Optimism => 3
        case Discipline => 4
        case Spontaneity => 5;
      assert TraitOrder[i] == t;
    }
  }

  /** Sociability from slant: right-leaning (above 5 degrees), left-leaning
      (below -5) or upright. */
  function SlantSociability(slant: real): real
  {
    if slant > 5.0 then 0.8 else if slant < -5.0 then 0.2 else 0.4
  }

  /** The correction word spacing applies to sociability: wide spacing (more
      than the letter size) lowers it by 0.1, narrow spacing (less than half
      the letter size) raises it by 0.2. */
  function SpacingAdjustment(wordSpacing: real, letterSize: real): real
  {
    if wordSpacing > letterSize then -0.1
    else if wordSpacing < letterSize * 0.5 then 0.2
    else 0.0
  }

  /** Straight baselines, with slope within 0.05 either way. */
  predicate StraightBaseline(slope: real)
  {
    -0.05 <= slope <= 0.05
  }

  /** Upright writing, with slant within 5 degrees either way. */
  predicate Upright(slant: real)
  {
    -5.0 <= slant <= 5.0
  }

  /** Each trait's score before the final clamp, one rule group per trait. */
  function RawScore(f: Features, t: Trait): real
  {
    match t
    case Sociability => SlantSociability(f.slant) + SpacingAdjustment(f.wordSpacing, f.letterSize)
    case Focus => if f.letterSize > 50.0 then 0.3 else if f.letterSize < 25.0 then 0.9 else 0.5
    case Intensity => if f.pressure < 120.0 then 0.8 else if f.pressure > 180.0 then 0.2 else 0.5
    case Optimism => if f.baselineSlope < -0.05 then 0.2 else if f.baselineSlope > 0.05 then 0.8 else 0.5
    case Discipline =>
      (if StraightBaseline(f.baselineSlope) then 0.8 else 0.3) + (if Upright(f.slant) then 0.2 else 0.0)
    case Spontaneity => if f.leftMargin > 40.0 then 0.2 else if f.leftMargin < 20.0 then 0.9 else 0.5
  }

  /** np.clip(v, lo, hi) for lo <= hi. */
  function Clip(v: real, lo: real, hi: real): (r: real)
    requires lo <= hi
    ensures lo <= r <= hi
    ensures lo <= v <= hi ==> r == v
    ensures v < lo ==> r == lo
    ensures v > hi ==> r == hi
  {
    if v < lo then lo else if v > hi then hi else v
  }

  /** A trait's final score. */
  function Score(f: Features, t: Trait): (r: real)
    ensures 0.1 <= r <= 1.0
  {
    Clip(RawScore(f, t), 0.1, 1.0)
  }

  /** Every rule already lands within [0.1, 1.0], so the final clamp never
      changes a score: the extremes are sociability 0.8 + 0.2 and
      0.2 - 0.1, and discipline 0.8 + 0.2. */
  lemma ClampInactive(f: Features, t: Trait)
    ensures 0.1 <= RawScore(f, t) <= 1.0
    ensures Score(f, t) == RawScore(f, t)
  {
  }

  /** Discipline is 0.8 for a straight baseline and 0.3 otherwise, plus 0.2
      for upright writing, so it takes exactly one of four values. */
  lemma DisciplineValues(f: Features)
    ensures Score(f, Discipline) in {0.3, 0.5, 0.8, 1.0}
    ensures Score(f, Discipline) == 1.0 <==> StraightBaseline(f.baselineSlope) && Upright(f.slant)
    ensures Score(f, Discipline) == 0.8 <==> StraightBaseline(f.baselineSlope) && !Upright(f.slant)
    ensures Score(f, Discipline) == 0.5 <==> !StraightBaseline(f.baselineSlope) && Upright(f.slant)
    ensures Score(f, Discipline) == 0.3 <==> !StraightBaseline(f.baselineSlope) && !Upright(f.slant)
  {
    ClampInactive(f, Discipline);
  }

  /** Sociability is one of the nine combinations of a slant score and a
      spacing correction. */
  lemma SociabilityValues(f: Features)
    ensures Score(f, Sociability) in {0.1, 0.2, 0.3, 0.4, 0.6, 0.7, 0.8, 1.0}
  {
    ClampInactive(f, Sociability);
  }

  // ---------------------------------------------------------------------
  // Descriptive labels

  /** The labels of the descriptive dictionary. */
  datatype Label = Outlook | SocialType | FocusLabel | IntensityLabel | Mood | Planning

  /** The key a label is stored under. */
  function Key(l: Label): string
  {
    match l
    case Outlook => "Outlook"
    case SocialType => "Social Type"
    case FocusLabel => "Focus"
    case IntensityLabel => "Intensity"
    case Mood => "Mood"
    case Planning => "Planning"
  }

  function OutlookText(slant: real): string
  {
    if slant > 5.0 then "Sociable, expressive, approach-oriented."
    else if slant < -5.0 then "Reserved, withdrawn, avoids conflict."
    else "Controlled, independent, balanced."
  }

  /** Word spacing gives a social type only when it is wide or narrow. */
  predicate HasSocialType(f: Features)
  {
    f.wordSpacing > f.letterSize || f.wordSpacing < f.letterSize * 0.5
  }

  function SocialTypeText(f: Features): string
  {
    if f.wordSpacing > f.letterSize then "Values space, independent."
    else "Sociable, seeks closeness."
  }

  function FocusText(letterSize: real): string
  {
    if letterSize > 50.0 then "Outgoing, assertive, big-picture oriented."
    else if letterSize < 25.0 then "Focused, introverted, detail-oriented."
    else "Balanced and adaptable."
  }

  function IntensityText(pressure: real): string
  {
    if pressure < 120.0 then "Intense, forceful, high energy."
    else if pressure > 180.0 then "Sensitive, empathetic, low arousal."
    else "Balanced emotional intensity."
  }

  function MoodText(slope: real): string
  {
    if slope < -0.05 then "Pessimistic, tired, or discouraged."
    else if slope > 0.05 then "Optimistic, energetic, ambitious."
    else "Steady, balanced, and stable."
  }

  /** The left margin gives a planning label only when it is wide or narrow. */
  predicate HasPlanning(f: Features)
  {
    f.leftMargin > 40.0 || f.leftMargin < 20.0
  }

  function PlanningText(leftMargin: real): string
  {
    if leftMargin > 40.0 then "Cautious, planned, looks to the future."
    else "Spontaneous, impulsive, lives in the moment."
  }

  /** The labels of the descriptive map: four always, two conditionally. */
  function LabelsOf(f: Features): set<Label>
  {
    {Outlook, FocusLabel, IntensityLabel, Mood}
    + (if HasSocialType(f) then {SocialType} else {})
    + (if HasPlanning(f) then {Planning} else {})
  }

  /** The text each label carries. */
  function Text(f: Features, l: Label): string
  {
    match l
    case Outlook => OutlookText(f.slant)
    case SocialType => SocialTypeText(f)
    case FocusLabel => FocusText(f.letterSize)
    case IntensityLabel => IntensityText(f.pressure)
    case Mood => MoodText(f.baselineSlope)
    case Planning => PlanningText(f.leftMargin)
  }

  // ---------------------------------------------------------------------
  // The rule engine

  /** The scores once the rules for the traits in done have run. */
  ghost predicate Scored(q: map<Trait, real>, f: Features, done: set<Trait>)
  {
    && q.Keys == AllTraits
    && (forall t :: t in q ==> q[t] == if t in done then RawScore(f, t) else 0.5)
  }

  /** The labels once the rules for the labels in done have run. */
  ghost predicate Labelled(d: map<Label, string>, f: Features, done: set<Label>)
  {
    && d.Keys == LabelsOf(f) * done
    && (forall l :: l in d ==> d[l] == Text(f, l))
  }

  /** Rule group 1: sociability from slant, corrected by word spacing, with
      the outlook and social-type labels. */
  method SociabilityRules(features: Features, q: map<Trait, real>, d: map<Label, string>)
    returns (quantitative: map<Trait, real>, descriptive: map<Label, string>)
    requires Scored(q, features, {})
    requires Labelled(d, features, {})
    ensures Scored(quantitative, features, {Sociability})
    ensures Labelled(descriptive, features, {Outlook, SocialType})
  {
    quantitative, descriptive := q, d;
    if features.slant > 5.0 {
      quantitative := quantitative[Sociability := 0.8];
      descriptive := descriptive[Outlook := "Sociable, expressive, approach-oriented."];
    } else if features.slant < -5.0 {
      quantitative := quantitative[Sociability := 0.2];
      descriptive := descriptive[Outlook := "Reserved, withdrawn, avoids conflict."];
    } else {
      quantitative := quantitative[Sociability := 0.4];
      descriptive := descriptive[Outlook := "Controlled, independent, balanced."];
    }
    if features.wordSpacing > features.letterSize {
      quantitative := quantitative[Sociability := quantitative[Sociability] - 0.1];
      descriptive := descriptive[SocialType := "Values space, independent."];
    } else if features.wordSpacing < features.letterSize * 0.5 {
      quantitative := quantitative[Sociability := quantitative[Sociability] + 0.2];
      descriptive := descriptive[SocialType := "Sociable, seeks closeness."];
    }
  }

  /** Rule group 2: focus from letter size. */
  method FocusRules(features: Features, q: map<Trait, real>, d: map<Label, string>)
    returns (quantitative: map<Trait, real>, descriptive: map<Label, string>)
    requires Scored(q, features, {Sociability})
    requires Labelled(d, features, {Outlook, SocialType})
    ensures Scored(quantitative, features, {Sociability, Focus})
    ensures Labelled(descriptive, features, {Outlook, SocialType, FocusLabel})
  {
    quantitative, descriptive := q, d;
    if features.letterSize > 50.0 {
      quantitative := quantitative[Focus := 0.3];
      descriptive := descriptive[FocusLabel := "Outgoing, assertive, big-picture oriented."];
    } else if features.letterSize < 25.0 {
      quantitative := quantitative[Focus := 0.9];
      descriptive := descriptive[FocusLabel := "Focused, introverted, detail-oriented."];
    } else {
      descriptive := descriptive[FocusLabel := "Balanced and adaptable."];
    }
  }

  /** Rule group 3: intensity from pressure (dark ink is a low grey level). */
  method IntensityRules(features: Features, q: map<Trait, real>, d: map<Label, string>)
    returns (quantitative: map<Trait, real>, descriptive: map<Label, string>)
    requires Scored(q, features, {Sociability, Focus})
    requires Labelled(d, features, {Outlook, SocialType, FocusLabel})
    ensures Scored(quantitative, features, {Sociability, Focus, Intensity})
    ensures Labelled(descriptive, features, {Outlook, SocialType, FocusLabel, IntensityLabel})
  {
    quantitative, descriptive := q, d;
    if features.pressure < 120.0 {
      quantitative := quantitative[Intensity := 0.8];
      descriptive := descriptive[IntensityLabel := "Intense, forceful, high energy."];
    } else if features.pressure > 180.0 {
      quantitative := quantitative[Intensity := 0.2];
      descriptive := descriptive[IntensityLabel := "Sensitive, empathetic, low arousal."];
    } else {
      descriptive := descriptive[IntensityLabel := "Balanced emotional intensity."];
    }
  }

  /** Rule group 4: optimism from the baseline slope. */
  method OptimismRules(features: Features, q: map<Trait, real>, d: map<Label, string>)
    returns (quantitative: map<Trait, real>, descriptive: map<Label, string>)
    requires Scored(q, features, {Sociability, Focus, Intensity})
    requires Labelled(d, features, {Outlook, SocialType, FocusLabel, IntensityLabel})
    ensures Scored(quantitative, features, {Sociability, Focus, Intensity, Optimism})
    ensures Labelled(descriptive, features, {Outlook, SocialType, FocusLabel, IntensityLabel, Mood})
  {
    quantitative, descriptive := q, d;
    if features.baselineSlope < -0.05 {
      quantitative := quantitative[Optimism := 0.2];
      descriptive := descriptive[Mood := "Pessimistic, tired, or discouraged."];
    } else if features.baselineSlope > 0.05 {
      quantitative := quantitative[Optimism := 0.8];
      descriptive := descriptive[Mood := "Optimistic, energetic, ambitious."];
    } else {
      quantitative := quantitative[Optimism := 0.5];
      descriptive := descriptive[Mood := "Steady, balanced, and stable."];
    }
  }

  /** Rule group 5: discipline from the baseline and the slant; no label. */
  method DisciplineRules(features: Features, q: map<Trait, real>)
    returns (quantitative: map<Trait, real>)
    requires Scored(q, features, {Sociability, Focus, Intensity, Optimism})
    ensures Scored(quantitative, features, {Sociability, Focus, Intensity, Optimism, Discipline})
  {
    quantitative := q;
    if -0.05 <= features.baselineSlope <= 0.05 {
      quantitative := quantitative[Discipline := 0.8];
    } else {
      quantitative := quantitative[Discipline := 0.3];
    }
    if -5.0 <= features.slant <= 5.0 {
      quantitative := quantitative[Discipline := quantitative[Discipline] + 0.2];
    }
  }

  /** Rule group 6: spontaneity from the left margin, with the planning label. */
  method SpontaneityRules(features: Features, q: map<Trait, real>, d: map<Label, string>)
    returns (quantitative: map<Trait, real>, descriptive: map<Label, string>)
    requires Scored(q, features, {Sociability, Focus, Intensity, Optimism, Discipline})
    requires Labelled(d, features, {Outlook, SocialType, FocusLabel, IntensityLabel, Mood})
    ensures Scored(quantitative, features, AllTraits)
    ensures Labelled(descriptive, features, {Outlook, SocialType, FocusLabel, IntensityLabel, Mood, Planning})
  {
    quantitative, descriptive := q, d;
    if features.leftMargin > 40.0 {
      quantitative := quantitative[Spontaneity := 0.2];
      descriptive := descriptive[Planning := "Cautious, planned, looks to the future."];
    } else if features.leftMargin < 20.0 {
      quantitative := quantitative[Spontaneity := 0.9];
      descriptive := descriptive[Planning := "Spontaneous, impulsive, lives in the moment."];
    }
  }

  /** The final loop: clamp every score to [0.1, 1.0], key by key in
      dictionary order. */
  method ClampScores(features: Features, q: map<Trait, real>) returns (quantitative: map<Trait, real>)
    requires Scored(q, features, AllTraits)
    ensures quantitative.Keys == AllTraits
    ensures forall t :: t in quantitative && quantitative[t] == Score(features, t)
  {
    quantitative := q;
    TraitOrderComplete();
    var i := 0;
    while i < |TraitOrder|
      invariant 0 <= i <= |TraitOrder|
      invariant quantitative.Keys == AllTraits
      invariant forall t :: t in quantitative ==>
                  quantitative[t] == if t in TraitOrder[..i] then Score(features, t) else RawScore(features, t)
    {
      var k := TraitOrder[i];
      assert TraitOrder[..i + 1] == TraitOrder[..i] + [k];
      quantitative := quantitative[k := Clip(quantitative[k], 0.1, 1.0)];
      i := i + 1;
    }
    assert TraitOrder[..|TraitOrder|] == TraitOrder;
  }

  /** get_personality_profile: every score starts at 0.5 and the labels
      empty; the six rule groups run in source order, then the clamp. */
  method GetPersonalityProfile(features: Features)
    returns (quantitative: map<Trait, real>, descriptive: map<Label, string>)
    ensures quantitative.Keys == AllTraits
    ensures forall t :: t in quantitative && quantitative[t] == Score(features, t)
    ensures descriptive.Keys == LabelsOf(features)
    ensures forall l :: l in descriptive ==> descriptive[l] == Text(features, l)
  {
    quantitative := map[Sociability := 0.5, Focus := 0.5, Intensity := 0.5,
                        Optimism := 0.5, Discipline := 0.5, Spontaneity := 0.5];
    descriptive := map[];
    quantitative, descriptive := SociabilityRules(features, quantitative, descriptive);
    quantitative, descriptive := FocusRules(features, quantitative, descriptive);
    quantitative, descriptive := IntensityRules(features, quantitative, descriptive);
    quantitative, descriptive := OptimismRules(features, quantitative, descriptive);
    quantitative := DisciplineRules(features, quantitative);
    quantitative, descriptive := SpontaneityRules(features, quantitative, descriptive);
    quantitative := ClampScores(features, quantitative);
    assert LabelsOf(features) * {Outlook, SocialType, FocusLabel, IntensityLabel, Mood, Planning} == LabelsOf(features);
  }

  // ---------------------------------------------------------------------
  // Properties of the profile

  /** Outlook, focus, intensity and mood are always labelled; the social type
      exactly when word spacing is wider than the letter size or narrower
      than half of it; planning exactly when the left margin is above 40 or
      below 20. */
  lemma LabelPresence(f: Features)
    ensures {Outlook, FocusLabel, IntensityLabel, Mood} <= LabelsOf(f)
    ensures SocialType in LabelsOf(f) <==> f.wordSpacing > f.letterSize || f.wordSpacing < f.letterSize * 0.5
    ensures Planning in LabelsOf(f) <==> f.leftMargin > 40.0 || f.leftMargin < 20.0
  {
  }

  /** The score dictionary has six distinct string keys. */
  lemma SixKeys()
    ensures |AllTraits| == 6
    ensures forall t1, t2 :: Name(t1) == Name(t2) ==> t1 == t2
    ensures forall l1, l2 :: Key(l1) == Key(l2) ==> l1 == l2
  {
  }

  /** Right-slanted, narrowly spaced, dark, rising writing of medium size
      with a wide margin. Narrow spacing (5 < 30 / 2) raises sociability from
      0.8 to 1.0. */
  lemma RisingRightSlantProfile()
    ensures var f := Features(100.0, 30.0, 8.0, 0.08, 5.0, 0.0, 50.0);
            && Score(f, Sociability) == 1.0
            && Score(f, Focus) == 0.5
            && Score(f, Intensity) == 0.8
            && Score(f, Optimism) == 0.8
            && Score(f, Discipline) == 0.3
            && Score(f, Spontaneity) == 0.2
            && LabelsOf(f) == {Outlook, SocialType, FocusLabel, IntensityLabel, Mood, Planning}
            && Text(f, SocialType) == "Sociable, seeks closeness."
  {
  }

  /** A page without ink has all features 0, so it reads as upright (0.4
      sociability, +0.2 discipline), small (focus 0.9), dark (intensity 0.8),
      level (optimism 0.5, discipline 0.8) and with a narrow margin
      (spontaneity 0.9); it gets no social-type label since 0 is neither
      above 0 nor below 0. */
  lemma BlankPageProfile(ink: seq<int>, contours: seq<WordContour>)
    ensures var f := Extract(false, ink, contours);
            && Score(f, Sociability) == 0.4
            && Score(f, Focus) == 0.9
            && Score(f, Intensity) == 0.8
            && Score(f, Optimism) == 0.5
            && Score(f, Discipline) == 1.0
            && Score(f, Spontaneity) == 0.9
            && LabelsOf(f) == {Outlook, FocusLabel, IntensityLabel, Mood, Planning}
  {
  }
}
