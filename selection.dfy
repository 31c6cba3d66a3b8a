/**
 * The best-so-far scan shared by the matchers of `src/vision/template_matcher.py`:
 * candidates are visited in order, the running best starts at confidence 0, and a
 * candidate replaces it only when its score is strictly greater than the best so
 * far and at least the threshold.
 */
module Selection {
  import opened Wrappers

  /** The score of the running best; the scans start it at 0. */
  function Level<T>(best: Option<T>, key: T -> real): real {
    if best.Some? then key(best.value) else 0.0
  }

  /** A candidate that the scan would accept on an empty best: present, at least the threshold, above 0. */
  predicate Qualifies<T>(c: Option<T>, key: T -> real, threshold: real) {
    c.Some? && key(c.value) >= threshold && key(c.value) > 0.0
  }

  /** Index of the candidate the scan ends with, written as the scan itself runs (last step peeled off). */
  function BestIndex<T>(cands: seq<Option<T>>, key: T -> real, threshold: real): (r: Option<nat>)
    ensures r.Some? ==> r.value < |cands| && cands[r.value].Some?
  {
    if cands == [] then None
    else
      var n := |cands| - 1;
      var b := BestIndex(cands[..n], key, threshold);
      var level := if b.Some? then key(cands[b.value].value) else 0.0;
      var c := cands[n];
      if c.Some? && key(c.value) > level && key(c.value) >= threshold then Some(n) else b
  }

  /** The candidate the scan ends with, or None. */
  function Best<T>(cands: seq<Option<T>>, key: T -> real, threshold: real): Option<T> {
    var i := BestIndex(cands, key, threshold);
    if i.Some? then cands[i.value] else None
  }

  /** One step of the scan: the candidate at `i` against the best of those before it. */
  lemma BestStep<T>(cands: seq<Option<T>>, key: T -> real, threshold: real, i: nat)
    requires i < |cands|
    ensures var b := Best(cands[..i], key, threshold);
      var c := cands[i];
      Best(cands[..i + 1], key, threshold) ==
        if c.Some? && key(c.value) > Level(b, key) && key(c.value) >= threshold then c else b
  {
    assert cands[..i + 1][..i] == cands[..i];
  }

  /** `i` holds the first maximal score among the qualifying candidates. */
  ghost predicate IsFirstBest<T>(cands: seq<Option<T>>, key: T -> real, threshold: real, i: int) {
    && 0 <= i < |cands|
    && Qualifies(cands[i], key, threshold)
    && (forall j :: 0 <= j < |cands| && Qualifies(cands[j], key, threshold) ==>
          key(cands[j].value) <= key(cands[i].value))
    && (forall j :: 0 <= j < i && Qualifies(cands[j], key, threshold) ==>
          key(cands[j].value) < key(cands[i].value))
  }

  /**
   * What the scan computes: it ends with no result exactly when no candidate qualifies,
   * and otherwise with the first candidate of maximal score.
   */
  lemma {:induction false} BestIndexIsFirstMaximum<T>(cands: seq<Option<T>>, key: T -> real, threshold: real)
    ensures BestIndex(cands, key, threshold).None? <==>
      forall j :: 0 <= j < |cands| ==> !Qualifies(cands[j], key, threshold)
    ensures BestIndex(cands, key, threshold).Some? ==>
      IsFirstBest(cands, key, threshold, BestIndex(cands, key, threshold).value)
  {
    if cands != [] {
      var n := |cands| - 1;
      var pre := cands[..n];
      BestIndexIsFirstMaximum(pre, key, threshold);
      var b := BestIndex(pre, key, threshold);
      assert forall j :: 0 <= j < n ==> pre[j] == cands[j];
      var r := BestIndex(cands, key, threshold);
      if r.Some? && r.value == n && b.Some? {
        assert IsFirstBest(pre, key, threshold, b.value);
      }
    }
  }

  /** The first maximum is unique, so the scan's result is determined by that property alone. */
  lemma FirstBestIsUnique<T>(cands: seq<Option<T>>, key: T -> real, threshold: real, i: int, k: int)
    requires IsFirstBest(cands, key, threshold, i) && IsFirstBest(cands, key, threshold, k)
    ensures i == k
  {
  }

  /** Both directions: the scan ends on index `i` exactly when `i` is the first maximum. */
  lemma BestIndexCharacterised<T>(cands: seq<Option<T>>, key: T -> real, threshold: real, i: int)
    ensures BestIndex(cands, key, threshold) == Some(i) <==> IsFirstBest(cands, key, threshold, i)
  {
    BestIndexIsFirstMaximum(cands, key, threshold);
    var r := BestIndex(cands, key, threshold);
    if IsFirstBest(cands, key, threshold, i) {
      assert r.Some?;
      FirstBestIsUnique(cands, key, threshold, i, r.value);
    }
  }

  /** The accepted score is at least the threshold and strictly positive. */
  lemma BestQualifies<T>(cands: seq<Option<T>>, key: T -> real, threshold: real)
    ensures var b := Best(cands, key, threshold);
      b.Some? ==> key(b.value) >= threshold && key(b.value) > 0.0
  {
    BestIndexIsFirstMaximum(cands, key, threshold);
  }

  /** Lowering the threshold never turns a found result into none. */
  lemma BestMonotoneInThreshold<T>(cands: seq<Option<T>>, key: T -> real, low: real, high: real)
    requires low <= high
    ensures Best(cands, key, high).Some? ==> Best(cands, key, low).Some?
  {
    BestIndexIsFirstMaximum(cands, key, high);
    BestIndexIsFirstMaximum(cands, key, low);
    if BestIndex(cands, key, high).Some? {
      var i := BestIndex(cands, key, high).value;
      assert Qualifies(cands[i], key, low);
    }
  }
}
