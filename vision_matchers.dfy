/**
 * The matchers of `TemplateMatcher` in `src/vision/template_matcher.py`.
 *
 * OpenCV is not modelled: a `Scene` carries what its calls report for one
 * screenshot/template pair (the peaks of `matchTemplate` + `minMaxLoc` for every
 * formula, scale and preprocessing, and the SIFT/FLANN/homography evidence), and
 * each matcher is the scan over those reports that the source performs.
 */
module Matchers {
  import opened Wrappers
  import opened MatchResults
  import Selection

  /** The normalised `matchTemplate` formulas, in the order `_match_template` tries them. */
  datatype Formula = CCoeffNormed | CCorrNormed | SqDiffNormed

  const Formulas: seq<Formula> := [CCoeffNormed, CCorrNormed, SqDiffNormed]

  /** What `minMaxLoc` reports about a response map. */
  datatype Peak = Peak(minVal: real, maxVal: real, minX: int, minY: int, maxX: int, maxY: int)

  /** A `matchTemplate` + `minMaxLoc` call: a peak, or an OpenCV exception. */
  datatype PeakOutcome = Located(peak: Peak) | Raised

  datatype RealPoint = RealPoint(x: real, y: real)

  /** The projected template corners and the RANSAC inlier mask (entries 0 or 1). */
  datatype Projection = Projection(c0: RealPoint, c1: RealPoint, c2: RealPoint, c3: RealPoint, mask: Option<seq<int>>)

  /** What SIFT, FLANN and `findHomography` produce, or an exception from any of them. */
  datatype FeatureEvidence =
    | FeatureRaised
    | Features(templateDescriptors: Option<nat>,   // number of template descriptors, None when SIFT found none
               screenHasDescriptors: bool,
               knn: seq<seq<real>>,                 // distances of the k=2 neighbours of each template descriptor
               homography: Option<Projection>)      // None when no homography was found

  datatype Scene = Scene(
    screenWidth: nat, screenHeight: nat,            // grey screenshot shape
    templateWidth: nat, templateHeight: nat,        // grey template shape
    native: Formula -> PeakOutcome,                 // template at its own size
    scaled: nat -> PeakOutcome,                     // TM_CCOEFF_NORMED with the template resized by tenths/10
    preprocessed: Transform -> PeakOutcome,         // TM_CCOEFF_NORMED after the preprocessing (Raised: it failed)
    features: FeatureEvidence)

  datatype VisionError = OpenCvError | UnknownMethod(name: string)

  function Confidence(m: MatchResult): real {
    m.confidence
  }

  // ---------------------------------------------------------------- single scale

  /** SQDIFF scores `1 - min` at the minimum; the correlation formulas score the maximum. */
  function Score(f: Formula, p: Peak): real {
    if f == SqDiffNormed then 1.0 - p.minVal else p.maxVal
  }

  function FormulaCandidate(s: Scene, f: Formula): (c: Option<MatchResult>)
    ensures c.Some? ==> c.value.tag == TemplateTag && c.value.width == s.templateWidth && c.value.height == s.templateHeight
  {
    match s.native(f)
    case Raised => None
    case Located(p) =>
      if f == SqDiffNormed then Some(Locate(p.minX, p.minY, s.templateWidth, s.templateHeight, Score(f, p), TemplateTag))
      else Some(Locate(p.maxX, p.maxY, s.templateWidth, s.templateHeight, Score(f, p), TemplateTag))
  }

  function FormulaCandidates(s: Scene): seq<Option<MatchResult>> {
    seq(|Formulas|, i requires 0 <= i < |Formulas| => FormulaCandidate(s, Formulas[i]))
  }

  /** `_match_template`: any formula raising escapes; otherwise the best qualifying formula. */
  function SingleScale(s: Scene, threshold: real): Result<Option<MatchResult>, VisionError> {
    if exists i :: 0 <= i < |Formulas| && s.native(Formulas[i]).Raised? then Err(OpenCvError)
    else Ok(Selection.Best(FormulaCandidates(s), Confidence, threshold))
  }

  method MatchTemplate(s: Scene, threshold: real) returns (r: Result<Option<MatchResult>, VisionError>)
    ensures r == SingleScale(s, threshold)
  {
    var best: Option<MatchResult> := None;
    var bestConfidence := 0.0;
    ghost var cands := FormulaCandidates(s);
    var i := 0;
    while i < |Formulas|
      invariant 0 <= i <= |Formulas|
      invariant forall j :: 0 <= j < i ==> s.native(Formulas[j]).Located?
      invariant best == Selection.Best(cands[..i], Confidence, threshold)
      invariant bestConfidence == Selection.Level(best, Confidence)
    {
      assert cands[..i + 1][..i] == cands[..i];
      var f := Formulas[i];
      match s.native(f) {
        case Raised =>
          return Err(OpenCvError);
        case Located(p) =>
          var score := Score(f, p);
          if score > bestConfidence && score >= threshold {
            best := FormulaCandidate(s, f);
            bestConfidence := score;
          }
      }
      i := i + 1;
    }
    assert cands[..i] == cands;
    r := Ok(best);
  }

  // ---------------------------------------------------------------- multi scale

  /** The sixteen scale factors 0.5, 0.6, ..., 2.0, in tenths. */
  const ScaleTenths: seq<nat> := [5, 6, 7, 8, 9, 10, 11, 12, 13, 14, 15, 16, 17, 18, 19, 20]

  /** `int(d * k/10)` for a non-negative dimension. */
  function ScaledSize(d: nat, tenths: nat): nat {
    d * tenths / 10
  }

  /** A scale is tried only when the scaled template fits the screenshot and is at least 10 pixels each way. */
  predicate ScaleTried(s: Scene, tenths: nat) {
    var w := ScaledSize(s.templateWidth, tenths);
    var h := ScaledSize(s.templateHeight, tenths);
    !(h > s.screenHeight || w > s.screenWidth) && !(h < 10 || w < 10)
  }

  function ScaleCandidate(s: Scene, tenths: nat): (c: Option<MatchResult>)
    ensures c.Some? ==> ScaleTried(s, tenths) && c.value.tag == MultiScaleTag(tenths)
    ensures c.Some? ==> c.value.width == ScaledSize(s.templateWidth, tenths) && c.value.height == ScaledSize(s.templateHeight, tenths)
  {
    if !ScaleTried(s, tenths) then None
    else match s.scaled(tenths)
      case Raised => None
      case Located(p) =>
        Some(Locate(p.maxX, p.maxY, ScaledSize(s.templateWidth, tenths), ScaledSize(s.templateHeight, tenths),
                    p.maxVal, MultiScaleTag(tenths)))
  }

  function ScaleCandidates(s: Scene): seq<Option<MatchResult>> {
    seq(|ScaleTenths|, i requires 0 <= i < |ScaleTenths| => ScaleCandidate(s, ScaleTenths[i]))
  }

  /** `_match_multi_scale`: a tried scale raising escapes; otherwise the best qualifying scale. */
  function MultiScale(s: Scene, threshold: real): Result<Option<MatchResult>, VisionError> {
    if exists i :: 0 <= i < |ScaleTenths| && ScaleTried(s, ScaleTenths[i]) && s.scaled(ScaleTenths[i]).Raised? then Err(OpenCvError)
    else Ok(Selection.Best(ScaleCandidates(s), Confidence, threshold))
  }

  method MatchMultiScale(s: Scene, threshold: real) returns (r: Result<Option<MatchResult>, VisionError>)
    ensures r == MultiScale(s, threshold)
  {
    var best: Option<MatchResult> := None;
    var bestConfidence := 0.0;
    ghost var cands := ScaleCandidates(s);
    var i := 0;
    while i < |ScaleTenths|
      invariant 0 <= i <= |ScaleTenths|
      invariant forall j :: 0 <= j < i && ScaleTried(s, ScaleTenths[j]) ==> s.scaled(ScaleTenths[j]).Located?
      invariant best == Selection.Best(cands[..i], Confidence, threshold)
      invariant bestConfidence == Selection.Level(best, Confidence)
    {
      assert cands[..i + 1][..i] == cands[..i];
      var k := ScaleTenths[i];
      var w := ScaledSize(s.templateWidth, k);
      var h := ScaledSize(s.templateHeight, k);
      if !(h > s.screenHeight || w > s.screenWidth) && !(h < 10 || w < 10) {
        match s.scaled(k) {
          case Raised =>
            return Err(OpenCvError);
          case Located(p) =>
            if p.maxVal > bestConfidence && p.maxVal >= threshold {
              best := ScaleCandidate(s, k);
              bestConfidence := p.maxVal;
            }
        }
      }
      i := i + 1;
    }
    assert cands[..i] == cands;
    r := Ok(best);
  }

  /** A multi-scale result is a tried scale in [0.5, 2.0] whose box fits the screenshot. */
  lemma MultiScaleResultFits(s: Scene, threshold: real)
    ensures var r := MultiScale(s, threshold);
      r.Ok? && r.value.Some? ==>
        var m := r.value.value;
        && m.tag.MultiScaleTag? && 5 <= m.tag.tenths <= 20
        && 10 <= m.width <= s.screenWidth && 10 <= m.height <= s.screenHeight
        && m.confidence >= threshold && m.confidence > 0.0
  {
    var cands := ScaleCandidates(s);
    Selection.BestIndexIsFirstMaximum(cands, Confidence, threshold);
  }

  // ---------------------------------------------------------------- preprocessing

  const Transforms: seq<Transform> := [Original, Blur, Threshold, Edges, Morphology]

  function TransformCandidate(s: Scene, t: Transform): (c: Option<MatchResult>)
    ensures c.Some? ==> c.value.tag == PreprocessedTag(t)
  {
    match s.preprocessed(t)
    case Raised => None
    case Located(p) => Some(Locate(p.maxX, p.maxY, s.templateWidth, s.templateHeight, p.maxVal, PreprocessedTag(t)))
  }

  function TransformCandidates(s: Scene): seq<Option<MatchResult>> {
    seq(|Transforms|, i requires 0 <= i < |Transforms| => TransformCandidate(s, Transforms[i]))
  }

  /** `_match_with_preprocessing`: a failing preprocessing is skipped, never fatal. */
  function Preprocessed(s: Scene, threshold: real): Option<MatchResult> {
    Selection.Best(TransformCandidates(s), Confidence, threshold)
  }

  method MatchWithPreprocessing(s: Scene, threshold: real) returns (r: Option<MatchResult>)
    ensures r == Preprocessed(s, threshold)
  {
    var best: Option<MatchResult> := None;
    var bestConfidence := 0.0;
    ghost var cands := TransformCandidates(s);
    var i := 0;
    while i < |Transforms|
      invariant 0 <= i <= |Transforms|
      invariant best == Selection.Best(cands[..i], Confidence, threshold)
      invariant bestConfidence == Selection.Level(best, Confidence)
    {
      assert cands[..i + 1][..i] == cands[..i];
      var t := Transforms[i];
      match s.preprocessed(t) {
        case Raised =>
        case Located(p) =>
          if p.maxVal > bestConfidence && p.maxVal >= threshold {
            best := TransformCandidate(s, t);
            bestConfidence := p.maxVal;
          }
      }
      i := i + 1;
    }
    assert cands[..i] == cands;
    r := best;
  }

  // ---------------------------------------------------------------- features

  /** Lowe's ratio test on one k-nearest-neighbour list. */
  predicate GoodPair(pair: seq<real>) {
    |pair| == 2 && pair[0] < 0.7 * pair[1]
  }

  /** Number of neighbour lists passing the ratio test. */
  function GoodCount(knn: seq<seq<real>>): (n: nat)
    ensures n <= |knn|
  {
    if knn == [] then 0
    else GoodCount(knn[..|knn| - 1]) + (if GoodPair(knn[|knn| - 1]) then 1 else 0)
  }

  /** The ratio-test loop of `_match_features`. */
  method CountGoodMatches(knn: seq<seq<real>>) returns (n: nat)
    ensures n == GoodCount(knn)
  {
    n := 0;
    var i := 0;
    while i < |knn|
      invariant 0 <= i <= |knn|
      invariant n == GoodCount(knn[..i])
    {
      assert knn[..i + 1][..i] == knn[..i];
      if |knn[i]| == 2 {
        if knn[i][0] < 0.7 * knn[i][1] {
          n := n + 1;
        }
      }
      i := i + 1;
    }
    assert knn[..i] == knn;
  }

  /** Python's `int()` on a float: truncation toward zero. */
  function Trunc(r: real): (n: int)
    ensures r >= 0.0 ==> n == r.Floor
    ensures r < 0.0 ==> n == -((-r).Floor)
    ensures -1.0 < r - n as real < 1.0
  {
    if r >= 0.0 then r.Floor else -((-r).Floor)
  }

  function Min4(a: real, b: real, c: real, d: real): (m: real)
    ensures m <= a && m <= b && m <= c && m <= d
    ensures m == a || m == b || m == c || m == d
  {
    var ab := if a <= b then a else b;
    var cd := if c <= d then c else d;
    if ab <= cd then ab else cd
  }

  function Max4(a: real, b: real, c: real, d: real): (m: real)
    ensures m >= a && m >= b && m >= c && m >= d
    ensures m == a || m == b || m == c || m == d
  {
    var ab := if a >= b then a else b;
    var cd := if c >= d then c else d;
    if ab >= cd then ab else cd
  }

  function Sum(xs: seq<int>): int {
    if xs == [] then 0 else Sum(xs[..|xs| - 1]) + xs[|xs| - 1]
  }

  /**
   * The inlier ratio `sum(mask) / len(mask)`, 0 without a mask; an empty mask
   * divides 0 by 0 into NaN, which no threshold accepts (None here).
   */
  function InlierRatio(mask: Option<seq<int>>): Option<real> {
    if mask.None? then Some(0.0)
    else if mask.value == [] then None
    else Some(Sum(mask.value) as real / |mask.value| as real)
  }

  /** The axis-aligned box around the projected corners, with `int()` on each coordinate. */
  function BoxOf(p: Projection, confidence: real): MatchResult {
    var minX := Min4(p.c0.x, p.c1.x, p.c2.x, p.c3.x);
    var maxX := Max4(p.c0.x, p.c1.x, p.c2.x, p.c3.x);
    var minY := Min4(p.c0.y, p.c1.y, p.c2.y, p.c3.y);
    var maxY := Max4(p.c0.y, p.c1.y, p.c2.y, p.c3.y);
    Locate(Trunc(minX), Trunc(minY), Trunc(maxX - minX), Trunc(maxY - minY), confidence, FeatureTag)
  }

  /** `e` lies within 1 of the least of four coordinates: each is above `e - 1`, one is below `e + 1`. */
  predicate NearLeast(e: real, a: real, b: real, c: real, d: real) {
    && e - 1.0 < a && e - 1.0 < b && e - 1.0 < c && e - 1.0 < d
    && (a < e + 1.0 || b < e + 1.0 || c < e + 1.0 || d < e + 1.0)
  }

  /** The greatest of four coordinates lies in `(e - 1, e + 2)`: two truncations add up. */
  predicate NearGreatest(e: real, a: real, b: real, c: real, d: real) {
    && a < e + 2.0 && b < e + 2.0 && c < e + 2.0 && d < e + 2.0
    && (e - 1.0 < a || e - 1.0 < b || e - 1.0 < c || e - 1.0 < d)
  }

  /** `_match_features`: every failure (exception included) gives None. */
  function FeatureMatch(e: FeatureEvidence, threshold: real): Option<MatchResult> {
    match e
    case FeatureRaised => None
    case Features(d1, d2, knn, h) =>
      if d1.None? || !d2 || d1.value < 10 then None
      else if GoodCount(knn) < 10 then None
      else if h.None? then None
      else
        var ratio := InlierRatio(h.value.mask);
        if ratio.Some? && ratio.value >= threshold then Some(BoxOf(h.value, ratio.value)) else None
  }

  method MatchFeatures(s: Scene, threshold: real) returns (r: Option<MatchResult>)
    ensures r == FeatureMatch(s.features, threshold)
  {
    match s.features {
      case FeatureRaised =>
        return None;
      case Features(d1, d2, knn, h) =>
        if d1.None? || !d2 || d1.value < 10 {
          return None;
        }
        var good := CountGoodMatches(knn);
        if good < 10 || h.None? {
          return None;
        }
        var ratio := InlierRatio(h.value.mask);
        if ratio.Some? && ratio.value >= threshold {
          return Some(BoxOf(h.value, ratio.value));
        }
        return None;
    }
  }

  /**
   * A feature result needs at least 10 template descriptors and 10 ratio-test
   * survivors, reaches the threshold with its inlier ratio, and its box spans the
   * projected corners (up to the truncation of each coordinate).
   */
  lemma FeatureResultEvidence(e: FeatureEvidence, threshold: real)
    requires FeatureMatch(e, threshold).Some?
    ensures e.Features? && e.templateDescriptors.Some? && e.templateDescriptors.value >= 10 && e.screenHasDescriptors
    ensures GoodCount(e.knn) >= 10 && e.homography.Some?
    ensures var m := FeatureMatch(e, threshold).value; var p := e.homography.value;
      && m.tag == FeatureTag && m.confidence >= threshold
      && InlierRatio(p.mask) == Some(m.confidence)
      && m.width >= 0 && m.height >= 0
      && NearLeast(m.x as real, p.c0.x, p.c1.x, p.c2.x, p.c3.x)
      && NearLeast(m.y as real, p.c0.y, p.c1.y, p.c2.y, p.c3.y)
      && NearGreatest((m.x + m.width) as real, p.c0.x, p.c1.x, p.c2.x, p.c3.x)
      && NearGreatest((m.y + m.height) as real, p.c0.y, p.c1.y, p.c2.y, p.c3.y)
  {
    var p := e.homography.value;
    EdgesNear(p.c0.x, p.c1.x, p.c2.x, p.c3.x);
    EdgesNear(p.c0.y, p.c1.y, p.c2.y, p.c3.y);
  }

  /** The truncated minimum and truncated span of four coordinates bracket them. */
  lemma EdgesNear(a: real, b: real, c: real, d: real)
    ensures var lo := Min4(a, b, c, d); var hi := Max4(a, b, c, d);
      && Trunc(hi - lo) >= 0
      && NearLeast(Trunc(lo) as real, a, b, c, d)
      && NearGreatest((Trunc(lo) + Trunc(hi - lo)) as real, a, b, c, d)
  {
    var lo := Min4(a, b, c, d);
    var hi := Max4(a, b, c, d);
    var x := Trunc(lo);
    var w := Trunc(hi - lo);
    assert -1.0 < lo - x as real < 1.0;
    assert 0.0 <= hi - lo - w as real < 1.0;
  }

  /** With a mask of 0/1 entries the inlier ratio is a fraction in [0, 1]. */
  lemma {:induction false} InlierRatioBounded(mask: seq<int>)
    requires forall i :: 0 <= i < |mask| ==> 0 <= mask[i] <= 1
    ensures 0 <= Sum(mask) <= |mask|
    ensures mask != [] ==> 0.0 <= InlierRatio(Some(mask)).value <= 1.0
  {
    if mask != [] {
      InlierRatioBounded(mask[..|mask| - 1]);
    }
  }

  // ---------------------------------------------------------------- dispatch and cascade

  /** The "auto" strategy: multi-scale when enabled, then features, then single scale. */
  function Auto(s: Scene, threshold: real, multiScale: bool): Result<Option<MatchResult>, VisionError> {
    if multiScale && MultiScale(s, threshold).Err? then MultiScale(s, threshold)
    else if multiScale && MultiScale(s, threshold).value.Some? then MultiScale(s, threshold)
    else if FeatureMatch(s.features, threshold).Some? then Ok(FeatureMatch(s.features, threshold))
    else SingleScale(s, threshold)
  }

  /** `find_template`: the method name selects the strategy; any other name is a ValueError. */
  function FindTemplate(s: Scene, threshold: real, name: string, multiScale: bool): Result<Option<MatchResult>, VisionError> {
    if name == "auto" then Auto(s, threshold, multiScale)
    else if name == "template" then SingleScale(s, threshold)
    else if name == "feature" then Ok(FeatureMatch(s.features, threshold))
    else if name == "multi_scale" then MultiScale(s, threshold)
    else Err(UnknownMethod(name))
  }

  /** The error cases of `find_template`: an unknown name, or an OpenCV exception in a template scan. */
  lemma FindTemplateErrors(s: Scene, threshold: real, name: string, multiScale: bool)
    ensures var r := FindTemplate(s, threshold, name, multiScale);
      && (r == Err(UnknownMethod(name)) <==> name !in {"auto", "template", "feature", "multi_scale"})
      && (r == Err(OpenCvError) ==> (name in {"auto", "multi_scale"} && MultiScale(s, threshold).Err?) ||
                                    (name in {"auto", "template"} && SingleScale(s, threshold).Err?))
      && (name == "feature" ==> r.Ok?)
  {
  }

  /** Each strategy labels its results with its own tag; "auto" never reports a multi-scale result when that is disabled. */
  lemma FindTemplateTags(s: Scene, threshold: real, name: string, multiScale: bool)
    ensures var r := FindTemplate(s, threshold, name, multiScale);
      r.Ok? && r.value.Some? ==>
        var t := r.value.value.tag;
        && (name == "template" ==> t == TemplateTag)
        && (name == "feature" ==> t == FeatureTag)
        && (name == "multi_scale" ==> t.MultiScaleTag?)
        && (name == "auto" ==> (t.MultiScaleTag? && multiScale) || t == FeatureTag || t == TemplateTag)
  {
    BestTagged(FormulaCandidates(s), threshold, TemplateTag);
    BestMultiScale(s, threshold);
  }

  lemma BestTagged(cands: seq<Option<MatchResult>>, threshold: real, tag: MethodTag)
    requires forall i :: 0 <= i < |cands| && cands[i].Some? ==> cands[i].value.tag == tag
    ensures var b := Selection.Best(cands, Confidence, threshold); b.Some? ==> b.value.tag == tag
  {
  }

  lemma BestMultiScale(s: Scene, threshold: real)
    ensures var b := Selection.Best(ScaleCandidates(s), Confidence, threshold); b.Some? ==> b.value.tag.MultiScaleTag?
  {
  }

  /**
   * `find_template_with_fallbacks`: five stages at thresholds c, 0.9c, 0.8c, 0.7c
   * and 0.5, each accepted when its result reaches its threshold; the last stage
   * relabels its result as low confidence. Exceptions of the template scans escape.
   */
  function Cascade(s: Scene, c: real): Result<Option<MatchResult>, VisionError> {
    var ms := MultiScale(s, c);
    if ms.Err? then ms
    else if ms.value.Some? && ms.value.value.confidence >= c then ms
    else
      var fm := FeatureMatch(s.features, c * 0.9);
      if fm.Some? && fm.value.confidence >= c * 0.9 then Ok(fm)
      else
        var tm := SingleScale(s, c * 0.8);
        if tm.Err? then tm
        else if tm.value.Some? && tm.value.value.confidence >= c * 0.8 then tm
        else
          var pm := Preprocessed(s, c * 0.7);
          if pm.Some? && pm.value.confidence >= c * 0.7 then Ok(pm)
          else
            var last := SingleScale(s, 0.5);
            if last.Err? then last
            else if last.value.Some? then
              var m := last.value.value;
              Ok(Some(m.(tag := LowConfidenceTag(m.tag))))
            else Ok(None)
  }

  /** The stage guards `result.confidence >= threshold` never reject a stage's result. */
  lemma CascadeGuardsImplied(s: Scene, c: real)
    ensures var ms := MultiScale(s, c); ms.Ok? && ms.value.Some? ==> ms.value.value.confidence >= c
    ensures var fm := FeatureMatch(s.features, c * 0.9); fm.Some? ==> fm.value.confidence >= c * 0.9
    ensures var tm := SingleScale(s, c * 0.8); tm.Ok? && tm.value.Some? ==> tm.value.value.confidence >= c * 0.8
    ensures var pm := Preprocessed(s, c * 0.7); pm.Some? ==> pm.value.confidence >= c * 0.7
  {
    Selection.BestQualifies(ScaleCandidates(s), Confidence, c);
    Selection.BestQualifies(FormulaCandidates(s), Confidence, c * 0.8);
    Selection.BestQualifies(TransformCandidates(s), Confidence, c * 0.7);
  }

  /**
   * The tag of a cascade result names the stage that produced it, and every
   * earlier stage came back empty.
   */
  lemma CascadeStage(s: Scene, c: real)
    requires Cascade(s, c).Ok? && Cascade(s, c).value.Some?
    ensures var m := Cascade(s, c).value.value;
      && (m.tag.MultiScaleTag? ==> MultiScale(s, c) == Ok(Some(m)))
      && (m.tag == FeatureTag ==> MultiScale(s, c) == Ok(None) && FeatureMatch(s.features, c * 0.9) == Some(m))
      && (m.tag == TemplateTag ==> MultiScale(s, c) == Ok(None) && FeatureMatch(s.features, c * 0.9).None?
                                   && SingleScale(s, c * 0.8) == Ok(Some(m)))
      && (m.tag.PreprocessedTag? ==> MultiScale(s, c) == Ok(None) && FeatureMatch(s.features, c * 0.9).None?
                                     && SingleScale(s, c * 0.8) == Ok(None) && Preprocessed(s, c * 0.7) == Some(m))
      && (m.tag.LowConfidenceTag? ==> m.tag.base == TemplateTag && m.confidence >= 0.5
                                      && MultiScale(s, c) == Ok(None) && FeatureMatch(s.features, c * 0.9).None?
                                      && SingleScale(s, c * 0.8) == Ok(None) && Preprocessed(s, c * 0.7).None?)
  {
    CascadeGuardsImplied(s, c);
    BestMultiScale(s, c);
    BestTagged(FormulaCandidates(s), c * 0.8, TemplateTag);
    BestTagged(FormulaCandidates(s), 0.5, TemplateTag);
    Selection.BestQualifies(FormulaCandidates(s), Confidence, 0.5);
    BestPreprocessedTag(s, c * 0.7);
  }

  lemma BestPreprocessedTag(s: Scene, threshold: real)
    ensures var b := Preprocessed(s, threshold); b.Some? ==> b.value.tag.PreprocessedTag?
  {
  }

  /**
   * The last, low-confidence stage can only fire when `0.8c` exceeds 0.5: with a
   * lower third-stage threshold the same template scan would already have
   * accepted its result.
   */
  lemma LowConfidenceNeedsHighThreshold(s: Scene, c: real)
    requires Cascade(s, c).Ok? && Cascade(s, c).value.Some?
    requires Cascade(s, c).value.value.tag.LowConfidenceTag?
    ensures c * 0.8 > 0.5
  {
    CascadeStage(s, c);
    if c * 0.8 <= 0.5 {
      Selection.BestMonotoneInThreshold(FormulaCandidates(s), Confidence, c * 0.8, 0.5);
      CascadeGuardsImplied(s, c);
    }
  }
}
