/**
 * `CaptchaDetector` of `src/python_sdk/captcha_solver.py`: input validation and
 * the template -> text -> pattern detector cascade. OpenCV's template scores,
 * tesseract's text and the Hough line angles are inputs.
 */
module CaptchaDetection {
  import opened Wrappers
  import Text

  /** `(x, y, width, height)` of a challenge. */
  datatype Box = Box(x: int, y: int, w: int, h: int)

  /** A detected challenge; the image crop is the screenshot restricted to `box`. */
  datatype Challenge = Challenge(box: Box, kind: string, confidence: real)

  /** `matchTemplate` + `minMaxLoc` for one stored template: the maximum and its location, or an exception. */
  datatype TemplateScan = Scanned(maxVal: real, maxX: int, maxY: int) | ScanRaised

  /** A stored template (its file stem, its size) with its scan against the screenshot. */
  datatype CaptchaTemplate = CaptchaTemplate(name: string, width: nat, height: nat, scan: TemplateScan)

  /** An exception escaping `detect_captcha` (the template scan has no handler). */
  datatype DetectError = OpenCvError

  /** numpy's `size`: the product of the dimensions. */
  function Size(shape: seq<nat>): nat {
    if shape == [] then 1 else Size(shape[..|shape| - 1]) * shape[|shape| - 1]
  }

  function Max(a: int, b: int): int { if a >= b then a else b }
  function Min(a: int, b: int): int { if a <= b then a else b }

  const Padding := 20

  /** The template's box grown by 20 pixels each way and clamped to the W x H image. */
  function PaddedBox(imageW: int, imageH: int, x: int, y: int, w: int, h: int): Box {
    var x1 := Max(0, x - Padding);
    var y1 := Max(0, y - Padding);
    var x2 := Min(imageW, x + w + Padding);
    var y2 := Min(imageH, y + h + Padding);
    Box(x1, y1, x2 - x1, y2 - y1)
  }

  predicate Inside(b: Box, imageW: int, imageH: int) {
    0 <= b.x && 0 <= b.y && b.w >= 0 && b.h >= 0 && b.x + b.w <= imageW && b.y + b.h <= imageH
  }

  /**
   * For a match location inside the image the padded box lies inside the image
   * and covers the matched template area (as far as it is inside the image).
   */
  lemma PaddedBoxInside(imageW: int, imageH: int, x: int, y: int, w: nat, h: nat)
    requires 0 <= x <= imageW && 0 <= y <= imageH
    ensures var b := PaddedBox(imageW, imageH, x, y, w, h);
      && Inside(b, imageW, imageH)
      && b.x <= x && b.y <= y
      && Min(imageW, x + w) <= b.x + b.w && Min(imageH, y + h) <= b.y + b.h
      && b.w <= w + 2 * Padding && b.h <= h + 2 * Padding
  {
  }

  /** `_detect_by_template`: the first template, in iteration order, scoring strictly above 0.7. */
  function TemplateDetection(imageW: int, imageH: int, ts: seq<CaptchaTemplate>): Result<Option<Challenge>, DetectError>
  {
    if ts == [] then Ok(None)
    else match ts[0].scan
      case ScanRaised => Err(OpenCvError)
      case Scanned(v, x, y) =>
        if v > 0.7 then Ok(Some(Challenge(PaddedBox(imageW, imageH, x, y, ts[0].width, ts[0].height), ts[0].name, v)))
        else TemplateDetection(imageW, imageH, ts[1..])
  }

  method DetectByTemplate(imageW: int, imageH: int, ts: seq<CaptchaTemplate>) returns (r: Result<Option<Challenge>, DetectError>)
    ensures r == TemplateDetection(imageW, imageH, ts)
  {
    var i := 0;
    while i < |ts|
      invariant 0 <= i <= |ts|
      invariant TemplateDetection(imageW, imageH, ts) == TemplateDetection(imageW, imageH, ts[i..])
    {
      assert ts[i..][1..] == ts[i + 1..];
      match ts[i].scan {
        case ScanRaised =>
          return Err(OpenCvError);
        case Scanned(v, x, y) =>
          if v > 0.7 {
            return Ok(Some(Challenge(PaddedBox(imageW, imageH, x, y, ts[i].width, ts[i].height), ts[i].name, v)));
          }
      }
      i := i + 1;
    }
    r := Ok(None);
  }

  /** The winning template is the first one above 0.7; every earlier one scanned without raising and scored at most 0.7. */
  lemma {:induction false} TemplateDetectionFirst(imageW: int, imageH: int, ts: seq<CaptchaTemplate>)
    requires TemplateDetection(imageW, imageH, ts).Ok? && TemplateDetection(imageW, imageH, ts).value.Some?
    ensures exists i :: (0 <= i < |ts| && ts[i].scan.Scanned? && ts[i].scan.maxVal > 0.7
      && (forall j :: 0 <= j < i ==> ts[j].scan.Scanned? && ts[j].scan.maxVal <= 0.7)
      && TemplateDetection(imageW, imageH, ts).value.value ==
           Challenge(PaddedBox(imageW, imageH, ts[i].scan.maxX, ts[i].scan.maxY, ts[i].width, ts[i].height), ts[i].name, ts[i].scan.maxVal))
  {
    if !(ts[0].scan.Scanned? && ts[0].scan.maxVal > 0.7) {
      TemplateDetectionFirst(imageW, imageH, ts[1..]);
      var i :| 0 <= i < |ts[1..]| && ts[1..][i].scan.Scanned? && ts[1..][i].scan.maxVal > 0.7
        && (forall j :: 0 <= j < i ==> ts[1..][j].scan.Scanned? && ts[1..][j].scan.maxVal <= 0.7)
        && TemplateDetection(imageW, imageH, ts[1..]).value.value ==
           Challenge(PaddedBox(imageW, imageH, ts[1..][i].scan.maxX, ts[1..][i].scan.maxY, ts[1..][i].width, ts[1..][i].height),
                     ts[1..][i].name, ts[1..][i].scan.maxVal);
      assert forall j :: 1 <= j <= i ==> ts[j] == ts[1..][j - 1];
    }
  }

  /** The lowercase indicators `_detect_by_text` looks for. */
  const Keywords: seq<string> := [
    "captcha", "verify", "human", "robot", "security",
    "prove", "verification", "challenge", "i'm not a robot",
    "select all", "click verify", "solve to continue"]

  /** `_detect_by_text`: `ocr` is tesseract's text, None when OCR is unavailable or raised. */
  function TextDetection(imageW: int, imageH: int, ocr: Option<string>): (r: Option<Challenge>)
    ensures r.Some? <==> ocr.Some? && exists k :: 0 <= k < |Keywords| && Text.Contains(Text.Lower(ocr.value), Keywords[k])
  {
    if ocr.Some? && exists k :: 0 <= k < |Keywords| && Text.Contains(Text.Lower(ocr.value), Keywords[k]) then
      Some(Challenge(Box(0, 0, imageW, imageH), "text_based", 0.8))
    else None
  }

  /** numpy's `pi`. */
  const Pi: real := 3.141592653589793

  function Abs(r: real): real { if r < 0.0 then -r else r }

  /** A Hough line near 0 or pi. */
  predicate Horizontal(theta: real) {
    Abs(theta) < 0.2 || Abs(theta - Pi) < 0.2
  }

  /** A Hough line near pi/2 that is not already counted horizontal. */
  predicate Vertical(theta: real) {
    !Horizontal(theta) && Abs(theta - Pi / 2.0) < 0.2
  }

  function HorizontalCount(thetas: seq<real>): (n: nat)
    ensures n <= |thetas|
  {
    if thetas == [] then 0
    else HorizontalCount(thetas[..|thetas| - 1]) + (if Horizontal(thetas[|thetas| - 1]) then 1 else 0)
  }

  function VerticalCount(thetas: seq<real>): (n: nat)
    ensures n <= |thetas|
  {
    if thetas == [] then 0
    else VerticalCount(thetas[..|thetas| - 1]) + (if Vertical(thetas[|thetas| - 1]) then 1 else 0)
  }

  /** Each line is counted at most once. */
  lemma {:induction false} CountsDisjoint(thetas: seq<real>)
    ensures HorizontalCount(thetas) + VerticalCount(thetas) <= |thetas|
  {
    if thetas != [] {
      CountsDisjoint(thetas[..|thetas| - 1]);
    }
  }

  /** The counting loop of `_detect_by_patterns`. */
  method CountLines(thetas: seq<real>) returns (horizontal: nat, vertical: nat)
    ensures horizontal == HorizontalCount(thetas) && vertical == VerticalCount(thetas)
  {
    horizontal, vertical := 0, 0;
    var i := 0;
    while i < |thetas|
      invariant 0 <= i <= |thetas|
      invariant horizontal == HorizontalCount(thetas[..i]) && vertical == VerticalCount(thetas[..i])
    {
      assert thetas[..i + 1][..i] == thetas[..i];
      var theta := thetas[i];
      if Abs(theta) < 0.2 || Abs(theta - Pi) < 0.2 {
        horizontal := horizontal + 1;
      } else if Abs(theta - Pi / 2.0) < 0.2 {
        vertical := vertical + 1;
      }
      i := i + 1;
    }
    assert thetas[..i] == thetas;
  }

  /** `_detect_by_patterns`: more than 20 lines, at least 3 horizontal and 3 vertical. `lines` is None when Hough found none. */
  function PatternDetection(imageW: int, imageH: int, lines: Option<seq<real>>): (r: Option<Challenge>)
    ensures r.Some? ==> lines.Some? && |lines.value| > 20
  {
    if lines.Some? && |lines.value| > 20 && HorizontalCount(lines.value) >= 3 && VerticalCount(lines.value) >= 3 then
      Some(Challenge(Box(0, 0, imageW, imageH), "grid_pattern", 0.6))
    else None
  }

  /** The indices of the horizontal lines. */
  ghost function HorizontalIndices(thetas: seq<real>): set<int> {
    set i | 0 <= i < |thetas| && Horizontal(thetas[i])
  }

  /** The indices of the vertical lines. */
  ghost function VerticalIndices(thetas: seq<real>): set<int> {
    set i | 0 <= i < |thetas| && Vertical(thetas[i])
  }

  /** The horizontal count is the number of lines within 0.2 rad of 0 or of pi. */
  lemma {:induction false} HorizontalCountIsCardinality(thetas: seq<real>)
    ensures HorizontalCount(thetas) == |HorizontalIndices(thetas)|
    decreases |thetas|
  {
    if thetas != [] {
      var n := |thetas| - 1;
      var front := thetas[..n];
      HorizontalCountIsCardinality(front);
      var last := if Horizontal(thetas[n]) then {n} else {};
      assert HorizontalIndices(thetas) == HorizontalIndices(front) + last by {
        forall i | 0 <= i < n
          ensures thetas[i] == front[i]
        {
        }
      }
      assert n !in HorizontalIndices(front);
    }
  }

  /** The vertical count is the number of non-horizontal lines within 0.2 rad of pi/2. */
  lemma {:induction false} VerticalCountIsCardinality(thetas: seq<real>)
    ensures VerticalCount(thetas) == |VerticalIndices(thetas)|
    decreases |thetas|
  {
    if thetas != [] {
      var n := |thetas| - 1;
      var front := thetas[..n];
      VerticalCountIsCardinality(front);
      var last := if Vertical(thetas[n]) then {n} else {};
      assert VerticalIndices(thetas) == VerticalIndices(front) + last by {
        forall i | 0 <= i < n
          ensures thetas[i] == front[i]
        {
        }
      }
      assert n !in VerticalIndices(front);
    }
  }

  /** More lines never lower either count. */
  lemma {:induction false} CountsGrow(thetas: seq<real>, more: seq<real>)
    ensures HorizontalCount(thetas) <= HorizontalCount(thetas + more)
    ensures VerticalCount(thetas) <= VerticalCount(thetas + more)
    decreases |more|
  {
    if more != [] {
      var n := |more| - 1;
      CountsGrow(thetas, more[..n]);
      assert (thetas + more)[..|thetas + more| - 1] == thetas + more[..n];
    } else {
      assert thetas + more == thetas;
    }
  }

  /** Hough finding further lines never turns a detected grid into no detection. */
  lemma PatternDetectionMonotone(imageW: int, imageH: int, lines: seq<real>, more: seq<real>)
    requires PatternDetection(imageW, imageH, Some(lines)).Some?
    ensures PatternDetection(imageW, imageH, Some(lines + more)) == PatternDetection(imageW, imageH, Some(lines))
  {
    CountsGrow(lines, more);
  }

  /** The evidence the three detectors see for one screenshot. */
  datatype Evidence = Evidence(templates: seq<CaptchaTemplate>, ocr: Option<string>, lines: Option<seq<real>>)

  /** `detect_captcha` on a screenshot of the given shape (height first). */
  function DetectCaptcha(shape: seq<nat>, e: Evidence): Result<Option<Challenge>, DetectError> {
    if Size(shape) == 0 || |shape| < 2 then Ok(None)
    else if shape[0] < 10 || shape[1] < 10 then Ok(None)
    else
      var w := shape[1];
      var h := shape[0];
      var t := TemplateDetection(w, h, e.templates);
      if t.Err? || t.value.Some? then t
      else if TextDetection(w, h, e.ocr).Some? then Ok(TextDetection(w, h, e.ocr))
      else Ok(PatternDetection(w, h, e.lines))
  }

  /** Invalid screenshots are never reported as challenges. */
  lemma DetectRejectsInvalid(shape: seq<nat>, e: Evidence)
    requires Size(shape) == 0 || |shape| < 2 || shape[0] < 10 || shape[1] < 10
    ensures DetectCaptcha(shape, e) == Ok(None)
  {
  }

  /**
   * The cascade order: a template above 0.7 wins; otherwise a keyword gives the
   * whole-screen text challenge, and only without one the grid pattern is
   * consulted. Every box lies inside the screenshot when the template scans
   * locate their matches inside it.
   */
  lemma DetectCascade(shape: seq<nat>, e: Evidence)
    requires DetectCaptcha(shape, e).Ok? && DetectCaptcha(shape, e).value.Some?
    requires forall i :: 0 <= i < |e.templates| && e.templates[i].scan.Scanned? ==>
      0 <= e.templates[i].scan.maxX <= shape[1] && 0 <= e.templates[i].scan.maxY <= shape[0]
    ensures var c := DetectCaptcha(shape, e).value.value;
      && |shape| >= 2 && shape[0] >= 10 && shape[1] >= 10
      && Inside(c.box, shape[1], shape[0])
      && (TemplateDetection(shape[1], shape[0], e.templates).Ok? && TemplateDetection(shape[1], shape[0], e.templates).value.Some? ==>
            c == TemplateDetection(shape[1], shape[0], e.templates).value.value && c.confidence > 0.7)
      && (TemplateDetection(shape[1], shape[0], e.templates) == Ok(None) ==>
            (c.kind == "text_based" && TextDetection(shape[1], shape[0], e.ocr).Some?) ||
            (c.kind == "grid_pattern" && TextDetection(shape[1], shape[0], e.ocr).None?
               && PatternDetection(shape[1], shape[0], e.lines).Some?))
  {
    var w := shape[1];
    var h := shape[0];
    var t := TemplateDetection(w, h, e.templates);
    if t.Ok? && t.value.Some? {
      TemplateDetectionFirst(w, h, e.templates);
      var i :| 0 <= i < |e.templates| && e.templates[i].scan.Scanned? && e.templates[i].scan.maxVal > 0.7
        && (forall j :: 0 <= j < i ==> e.templates[j].scan.Scanned? && e.templates[j].scan.maxVal <= 0.7)
        && t.value.value == Challenge(PaddedBox(w, h, e.templates[i].scan.maxX, e.templates[i].scan.maxY,
                                                e.templates[i].width, e.templates[i].height),
                                      e.templates[i].name, e.templates[i].scan.maxVal);
      PaddedBoxInside(w, h, e.templates[i].scan.maxX, e.templates[i].scan.maxY, e.templates[i].width, e.templates[i].height);
    }
  }
}
