/**
 * Match results and monitor geometry of `src/vision/template_matcher.py`.
 */
module MatchResults {
  import opened Wrappers

  /** The five image preprocessings tried, in their order of trial. */
  datatype Transform = Original | Blur | Threshold | Edges | Morphology

  /** The label a matcher attaches to its result; rendered by `MethodText`. */
  datatype MethodTag =
    | TemplateTag
    | FeatureTag
    | MultiScaleTag(tenths: nat)            // scale factor tenths/10
    | PreprocessedTag(transform: Transform)
    | OcrFuzzyTag(hundredths: nat)          // similarity rounded to two decimals
    | TemplateMultiTag
    | LowConfidenceTag(base: MethodTag)     // suffix added by the last fallback stage

  datatype MatchResult = MatchResult(
    x: int, y: int, width: int, height: int,
    confidence: real,
    centerX: int, centerY: int,
    tag: MethodTag)

  function TransformName(t: Transform): string {
    match t
    case Original => "original"
    case Blur => "blur"
    case Threshold => "threshold"
    case Edges => "edges"
    case Morphology => "morphology"
  }

  function DigitChar(d: nat): (c: char)
    requires d < 10
    ensures '0' <= c <= '9'
  {
    (d + '0' as int) as char
  }

  /** Decimal rendering of a natural number, without leading zeros. */
  function NatText(n: nat): (s: string)
    ensures |s| >= 1
    ensures forall i :: 0 <= i < |s| ==> '0' <= s[i] <= '9'
    decreases n
  {
    if n < 10 then [DigitChar(n)] else NatText(n / 10) + [DigitChar(n % 10)]
  }

  /** Value a decimal digit string denotes. */
  function DigitsValue(s: string): int
    requires forall i :: 0 <= i < |s| ==> '0' <= s[i] <= '9'
  {
    if s == [] then 0 else 10 * DigitsValue(s[..|s| - 1]) + (s[|s| - 1] as int - '0' as int)
  }

  /** The rendering reads back as the number it renders. */
  lemma {:induction false} NatTextValue(n: nat)
    ensures DigitsValue(NatText(n)) == n
    decreases n
  {
    if n >= 10 {
      NatTextValue(n / 10);
      var s := NatText(n);
      assert s[..|s| - 1] == NatText(n / 10);
    }
  }

  /** `n / 100` with two decimals, as Python's `.2f` prints a value of `n` hundredths. */
  function Hundredths(n: nat): string {
    NatText(n / 100) + "." + [DigitChar(n % 100 / 10), DigitChar(n % 10)]
  }

  /** The `method` string of a result. */
  function MethodText(t: MethodTag): (s: string)
    ensures t.LowConfidenceTag? ==> s == MethodText(t.base) + "_low_confidence"
  {
    match t
    case TemplateTag => "template"
    case FeatureTag => "feature"
    case MultiScaleTag(k) => "multi_scale_" + NatText(k / 10) + "." + [DigitChar(k % 10)] + "x"
    case PreprocessedTag(tr) => "preprocessed_" + TransformName(tr)
    case OcrFuzzyTag(h) => "ocr_fuzzy(" + Hundredths(h) + ")"
    case TemplateMultiTag => "template_multi"
    case LowConfidenceTag(b) => MethodText(b) + "_low_confidence"
  }

  /** A result positioned at (x, y) with the source's centre rule `x + w // 2`. */
  function Locate(x: int, y: int, w: int, h: int, confidence: real, tag: MethodTag): (m: MatchResult)
    ensures m.x == x && m.y == y && m.width == w && m.height == h
    ensures m.confidence == confidence && m.tag == tag
    ensures w >= 0 ==> x <= m.centerX <= x + w && 2 * (m.centerX - x) <= w < 2 * (m.centerX - x) + 2
    ensures h >= 0 ==> y <= m.centerY <= y + h && 2 * (m.centerY - y) <= h < 2 * (m.centerY - y) + 2
  {
    MatchResult(x, y, w, h, confidence, x + w / 2, y + h / 2, tag)
  }

  function TopLeft(m: MatchResult): (int, int) {
    (m.x, m.y)
  }

  function BottomRight(m: MatchResult): (p: (int, int))
    ensures p.0 - TopLeft(m).0 == m.width && p.1 - TopLeft(m).1 == m.height
  {
    (m.x + m.width, m.y + m.height)
  }

  /** A monitor record as `MultiMonitorMatcher` keeps it. */
  datatype Monitor = Monitor(id: int, x: int, y: int, width: int, height: int, primary: bool)

  /** Half-open containment used by `get_monitor_at_point`. */
  predicate Covers(m: Monitor, px: int, py: int) {
    m.x <= px < m.x + m.width && m.y <= py < m.y + m.height
  }

  /** The first monitor in list order that covers the point, or None. */
  function MonitorAt(monitors: seq<Monitor>, px: int, py: int): (r: Option<Monitor>)
    ensures r.None? <==> forall i :: 0 <= i < |monitors| ==> !Covers(monitors[i], px, py)
    ensures r.Some? ==> r.value in monitors && Covers(r.value, px, py)
  {
    if monitors == [] then None
    else if Covers(monitors[0], px, py) then Some(monitors[0])
    else
      assert forall i :: 1 <= i < |monitors| ==> monitors[i] == monitors[1..][i - 1];
      MonitorAt(monitors[1..], px, py)
  }

  /** The monitor found is the first covering one in list order. */
  lemma {:induction false} MonitorAtIsFirst(monitors: seq<Monitor>, px: int, py: int, i: int)
    requires 0 <= i < |monitors| && Covers(monitors[i], px, py)
    requires forall j :: 0 <= j < i ==> !Covers(monitors[j], px, py)
    ensures MonitorAt(monitors, px, py) == Some(monitors[i])
  {
    if i > 0 {
      MonitorAtIsFirst(monitors[1..], px, py, i - 1);
    }
  }
}
