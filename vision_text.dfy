/**
 * `find_text` of `src/vision/template_matcher.py`: OCR words resolved against a
 * target by substring or fuzzy similarity. Tesseract is a parameter (its word
 * table, or None when it is missing or raised) and `difflib`'s ratio is an
 * arbitrary function of the two strings.
 */
module TextMatch {
  import opened Wrappers
  import opened MatchResults
  import opened Text
  import Selection

  /** One row of `image_to_data`: text, confidence in percent, and box. */
  datatype OcrWord = OcrWord(text: string, conf: real, left: int, top: int, width: int, height: int)

  /** The running best of the scan: word index, similarity, OCR confidence in [0,1] terms. */
  datatype TextHit = TextHit(index: nat, similarity: real, ocrConfidence: real)

  function HitSimilarity(h: TextHit): real {
    h.similarity
  }

  /** 1.0 when the target occurs in the word, 0.95 when the word occurs in the target, else the fuzzy ratio. */
  function Similarity(target: string, word: string, ratio: (string, string) -> real): (r: real)
    ensures Contains(word, target) ==> r == 1.0
    ensures !Contains(word, target) && Contains(target, word) ==> r == 0.95
  {
    if Contains(word, target) then 1.0
    else if Contains(target, word) then 0.95
    else ratio(target, word)
  }

  /** The scan's view of word `i`: skipped when blank or below the OCR confidence. */
  function WordCandidate(words: seq<OcrWord>, i: nat, target: string, confidence: real,
                         ratio: (string, string) -> real): (c: Option<TextHit>)
    requires i < |words|
    ensures c.Some? ==> c.value.index == i && !IsBlank(words[i].text) && c.value.ocrConfidence >= confidence
  {
    var w := words[i];
    if IsBlank(w.text) then None
    else
      var ocr := w.conf / 100.0;
      if ocr < confidence then None
      else Some(TextHit(i, Similarity(Strip(Lower(target)), Lower(Strip(w.text)), ratio), ocr))
  }

  function WordCandidates(words: seq<OcrWord>, target: string, confidence: real,
                          ratio: (string, string) -> real): seq<Option<TextHit>> {
    seq(|words|, i requires 0 <= i < |words| => WordCandidate(words, i, target, confidence, ratio))
  }

  /**
   * Similarity rounded to hundredths for the method label, as `:.2f` does:
   * to the nearest hundredth, and a tie to the even one.
   */
  function RoundHundredths(r: real): (n: nat)
    ensures r >= 0.0 ==> -0.5 <= n as real - r * 100.0 <= 0.5
    ensures r >= 0.0 && r * 100.0 - (r * 100.0).Floor as real == 0.5 ==> n % 2 == 0
  {
    if r <= 0.0 then 0
    else
      var f := (r * 100.0).Floor;
      var d := r * 100.0 - f as real;
      if d > 0.5 || (d == 0.5 && f % 2 == 1) then f + 1 else f
  }

  /** A similarity of 0.625 (a five-of-eight match) is labelled `ocr_fuzzy(0.62)`. */
  lemma FuzzyLabelTieToEven()
    ensures MethodText(OcrFuzzyTag(RoundHundredths(0.625))) == "ocr_fuzzy(0.62)"
  {
    assert (0.625 * 100.0).Floor == 62;
    assert RoundHundredths(0.625) == 62;
  }

  /** The result built from the winning word: 70% similarity and 30% OCR confidence. */
  function HitResult(words: seq<OcrWord>, h: TextHit): MatchResult
    requires h.index < |words|
  {
    var w := words[h.index];
    Locate(w.left, w.top, w.width, w.height, h.similarity * 0.7 + h.ocrConfidence * 0.3,
           OcrFuzzyTag(RoundHundredths(h.similarity)))
  }

  /** `find_text` as a function of the OCR table (None: OCR unavailable or failed). */
  function FoundText(ocr: Option<seq<OcrWord>>, target: string, confidence: real, fuzzy: real,
                     ratio: (string, string) -> real): Option<MatchResult> {
    if ocr.None? then None
    else
      var words := ocr.value;
      var cands := WordCandidates(words, target, confidence, ratio);
      var i := Selection.BestIndex(cands, HitSimilarity, fuzzy);
      if i.None? then None
      else
        var h := cands[i.value].value;
        assert h.index == i.value;
        Some(HitResult(words, h))
  }

  method FindText(ocr: Option<seq<OcrWord>>, target: string, confidence: real, fuzzy: real,
                  ratio: (string, string) -> real) returns (r: Option<MatchResult>)
    ensures r == FoundText(ocr, target, confidence, fuzzy, ratio)
  {
    if ocr.None? {
      return None;
    }
    var words := ocr.value;
    var best: Option<TextHit> := None;
    var bestSimilarity := 0.0;
    ghost var cands := WordCandidates(words, target, confidence, ratio);
    var i := 0;
    while i < |words|
      invariant 0 <= i <= |words|
      invariant best == Selection.Best(cands[..i], HitSimilarity, fuzzy)
      invariant bestSimilarity == Selection.Level(best, HitSimilarity)
    {
      // blank words and words below the OCR confidence give no candidate
      var c := WordCandidate(words, i, target, confidence, ratio);
      assert cands[i] == c;
      Selection.BestStep(cands, HitSimilarity, fuzzy, i);
      if c.Some? && c.value.similarity >= fuzzy && c.value.similarity > bestSimilarity {
        bestSimilarity := c.value.similarity;
        best := c;
      }
      i := i + 1;
    }
    assert cands[..i] == cands;
    if best.Some? {
      r := Some(HitResult(words, best.value));
    } else {
      r := None;
    }
  }

  /**
   * What a found text is: the first non-blank word of maximal similarity among
   * those with enough OCR confidence and at least the fuzzy threshold, boxed as
   * OCR reported it, with confidence 0.7 * similarity + 0.3 * OCR confidence.
   * No result means OCR was unavailable or no word qualifies.
   */
  lemma FoundTextMeaning(ocr: Option<seq<OcrWord>>, target: string, confidence: real, fuzzy: real,
                         ratio: (string, string) -> real)
    ensures var r := FoundText(ocr, target, confidence, fuzzy, ratio);
      && (r.None? <==> (ocr.None? ||
            forall j :: 0 <= j < |ocr.value| ==>
              !Selection.Qualifies(WordCandidates(ocr.value, target, confidence, ratio)[j], HitSimilarity, fuzzy)))
      && (r.Some? ==> exists i :: (0 <= i < |ocr.value| &&
            var cands := WordCandidates(ocr.value, target, confidence, ratio);
            var w := ocr.value[i];
            && Selection.IsFirstBest(cands, HitSimilarity, fuzzy, i)
            && !IsBlank(w.text) && w.conf / 100.0 >= confidence
            && cands[i].value.similarity >= fuzzy
            && r.value.x == w.left && r.value.y == w.top && r.value.width == w.width && r.value.height == w.height
            && r.value.confidence == cands[i].value.similarity * 0.7 + (w.conf / 100.0) * 0.3))
  {
    if ocr.Some? {
      var cands := WordCandidates(ocr.value, target, confidence, ratio);
      Selection.BestIndexIsFirstMaximum(cands, HitSimilarity, fuzzy);
    }
  }

  /** With a ratio in [0, 1], every similarity is in [0, 1], so a found confidence is at most 0.7 + 0.3 * OCR confidence. */
  lemma SimilarityBounded(target: string, word: string, ratio: (string, string) -> real)
    requires 0.0 <= ratio(target, word) <= 1.0
    ensures 0.0 <= Similarity(target, word, ratio) <= 1.0
  {
  }

  /** A word that contains the cleaned target outright is a perfect match. */
  lemma ContainedTargetIsExact(words: seq<OcrWord>, i: nat, target: string, confidence: real,
                               ratio: (string, string) -> real)
    requires i < |words| && !IsBlank(words[i].text) && words[i].conf / 100.0 >= confidence
    requires Contains(Lower(Strip(words[i].text)), Strip(Lower(target)))
    ensures WordCandidate(words, i, target, confidence, ratio) == Some(TextHit(i, 1.0, words[i].conf / 100.0))
  {
  }
}
