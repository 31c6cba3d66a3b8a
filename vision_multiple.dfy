/**
 * `find_multiple` of `src/vision/template_matcher.py`: the rectangles left by
 * OpenCV's grouping are cut to `max_matches` with Python slice semantics, turned
 * into results scored at their top-left corner, and sorted by descending
 * confidence with Python's stable sort.
 */
module MultiMatch {
  import opened MatchResults

  /** A grouped rectangle `[x, y, w, h]`. */
  datatype Rect = Rect(x: int, y: int, w: int, h: int)

  /** `s[:n]`: a negative `n` counts from the end. */
  function SlicePrefix<T>(s: seq<T>, n: int): (r: seq<T>)
    ensures |r| == if n >= 0 then (if n <= |s| then n else |s|) else (if -n <= |s| then |s| + n else 0)
    ensures r == s[..|r|]
  {
    if n >= 0 then (if n <= |s| then s[..n] else s)
    else if -n <= |s| then s[..|s| + n]
    else []
  }

  /** The result for one rectangle; `score(x, y)` is the response map at its corner. */
  function RectResult(r: Rect, score: (int, int) -> real): MatchResult {
    Locate(r.x, r.y, r.w, r.h, score(r.x, r.y), TemplateMultiTag)
  }

  function RectResults(rects: seq<Rect>, score: (int, int) -> real): (ms: seq<MatchResult>)
    ensures |ms| == |rects|
    ensures forall i :: 0 <= i < |rects| ==> ms[i] == RectResult(rects[i], score)
  {
    if rects == [] then [] else RectResults(rects[..|rects| - 1], score) + [RectResult(rects[|rects| - 1], score)]
  }

  /** Inserts `m` after every element of confidence at least its own, which keeps equal confidences in arrival order. */
  function Insert(sorted: seq<MatchResult>, m: MatchResult): (r: seq<MatchResult>)
    ensures |r| == |sorted| + 1
    ensures multiset(r) == multiset(sorted) + multiset{m}
  {
    if sorted == [] then [m]
    else if sorted[0].confidence >= m.confidence then
      assert sorted == [sorted[0]] + sorted[1..];
      [sorted[0]] + Insert(sorted[1..], m)
    else [m] + sorted
  }

  /** `sorted(..., key=confidence, reverse=True)`, as a stable insertion sort. */
  function SortByConfidence(ms: seq<MatchResult>): (r: seq<MatchResult>)
    ensures |r| == |ms|
    ensures multiset(r) == multiset(ms)
  {
    if ms == [] then []
    else
      assert ms == ms[..|ms| - 1] + [ms[|ms| - 1]];
      Insert(SortByConfidence(ms[..|ms| - 1]), ms[|ms| - 1])
  }

  ghost predicate Descending(ms: seq<MatchResult>) {
    forall i, j :: 0 <= i < j < |ms| ==> ms[i].confidence >= ms[j].confidence
  }

  lemma {:induction false} InsertDescending(sorted: seq<MatchResult>, m: MatchResult)
    requires Descending(sorted)
    ensures Descending(Insert(sorted, m))
    decreases |sorted|
  {
    if sorted != [] && sorted[0].confidence >= m.confidence {
      InsertDescending(sorted[1..], m);
      var r := Insert(sorted, m);
      var t := Insert(sorted[1..], m);
      assert multiset(t) == multiset(sorted[1..]) + multiset{m};
      forall j | 1 <= j < |r|
        ensures r[0].confidence >= r[j].confidence
      {
        assert r[j] == t[j - 1];
        assert r[j] in multiset(t);
        if r[j] != m {
          assert r[j] in multiset(sorted[1..]);
          var k :| 0 <= k < |sorted[1..]| && sorted[1..][k] == r[j];
          assert sorted[k + 1] == r[j];
        }
      }
    }
  }

  /** The sort orders by descending confidence. */
  lemma {:induction false} SortByConfidenceSorted(ms: seq<MatchResult>)
    ensures Descending(SortByConfidence(ms))
  {
    if ms != [] {
      var pre := ms[..|ms| - 1];
      SortByConfidenceSorted(pre);
      InsertDescending(SortByConfidence(pre), ms[|ms| - 1]);
    }
  }

  /** `find_multiple` from the grouped rectangles and the response map. */
  method FindMultiple(rects: seq<Rect>, score: (int, int) -> real, maxMatches: int) returns (ms: seq<MatchResult>)
    ensures ms == SortByConfidence(RectResults(SlicePrefix(rects, maxMatches), score))
  {
    var kept := SlicePrefix(rects, maxMatches);
    var matches: seq<MatchResult> := [];
    var i := 0;
    while i < |kept|
      invariant 0 <= i <= |kept|
      invariant matches == RectResults(kept[..i], score)
    {
      assert kept[..i + 1][..i] == kept[..i];
      matches := matches + [RectResult(kept[i], score)];
      i := i + 1;
    }
    assert kept[..i] == kept;
    ms := SortByConfidence(matches);
  }

  /**
   * What `find_multiple` returns: one result per kept rectangle (the first
   * `max_matches` in Python's slice sense), in descending confidence order, each
   * labelled `template_multi` with the rectangle's box and the corner's score.
   */
  lemma FindMultipleMeaning(rects: seq<Rect>, score: (int, int) -> real, maxMatches: int)
    ensures var kept := SlicePrefix(rects, maxMatches);
      var ms := SortByConfidence(RectResults(kept, score));
      && Descending(ms)
      && multiset(ms) == multiset(RectResults(kept, score))
      && |ms| == |kept| <= |rects|
      && (0 <= maxMatches ==> |ms| == if maxMatches <= |rects| then maxMatches else |rects|)
      && forall i :: 0 <= i < |ms| ==> ms[i].tag == TemplateMultiTag
  {
    var kept := SlicePrefix(rects, maxMatches);
    var built := RectResults(kept, score);
    SortByConfidenceSorted(built);
    var ms := SortByConfidence(built);
    forall i | 0 <= i < |ms|
      ensures ms[i].tag == TemplateMultiTag
    {
      assert ms[i] in multiset(built);
      var k :| 0 <= k < |built| && built[k] == ms[i];
    }
  }
}
