/**
 * The wait conditions of `src/python_sdk/wait_conditions.py`: the stability
 * state machine shared by `ElementClickableCondition` and
 * `ScreenStableCondition`, the disappearance test, AND/OR composition, the
 * attempt-counting wait loop and the raise/return rules of `ExpectationSystem`.
 * What the daemon, OCR and OpenCV report, and the clock, are inputs.
 */
module WaitConditions {
  import opened Wrappers
  import Text

  // ---------------------------------------------------------------- stability

  /** One `check` call's view: what was found (None when nothing was), and the time. */
  datatype Sighting<T> = Sighting(seen: Option<T>, at: real)

  /** The state both stability conditions keep: the recorded sighting and since when it has held. */
  datatype Tracker<T> = Tracker(recorded: Option<T>, since: real)

  function Initial<T>(): Tracker<T> { Tracker(None, 0.0) }

  /**
   * One `check`: nothing seen leaves the state and fails; the first sighting is
   * recorded and fails; a sighting that is `same` as the recorded one succeeds
   * once `duration` has passed since it was recorded; any other sighting is
   * recorded afresh and fails.
   */
  function Step<T>(t: Tracker<T>, s: Sighting<T>, duration: real, same: (T, T) -> bool): (r: (Tracker<T>, bool))
    ensures r.1 <==> s.seen.Some? && t.recorded.Some? && same(t.recorded.value, s.seen.value) && s.at - t.since >= duration
    ensures s.seen.None? || r.1 ==> r.0 == t
    ensures t.recorded.None? ==> !r.1
  {
    if s.seen.None? then (t, false)
    else if t.recorded.None? then (Tracker(s.seen, s.at), false)
    else if same(t.recorded.value, s.seen.value) then (t, s.at - t.since >= duration)
    else (Tracker(s.seen, s.at), false)
  }

  /** The state after a series of `check` calls. */
  function Run<T>(obs: seq<Sighting<T>>, duration: real, same: (T, T) -> bool): Tracker<T>
  {
    if obs == [] then Initial()
    else Step(Run(obs[..|obs| - 1], duration, same), obs[|obs| - 1], duration, same).0
  }

  /**
   * What the state records: nothing until the first sighting; afterwards a
   * sighting made at `since`, to which every later sighting has stayed `same`.
   */
  lemma {:induction false} RunHistory<T>(obs: seq<Sighting<T>>, duration: real, same: (T, T) -> bool)
    ensures var t := Run(obs, duration, same);
      && (t.recorded.None? <==> forall k :: 0 <= k < |obs| ==> obs[k].seen.None?)
      && (t.recorded.Some? ==> exists j :: (0 <= j < |obs| && obs[j].seen == t.recorded && obs[j].at == t.since
            && forall k :: j < k < |obs| && obs[k].seen.Some? ==> same(t.recorded.value, obs[k].seen.value)))
  {
    if obs != [] {
      var n := |obs| - 1;
      var pre := obs[..n];
      RunHistory(pre, duration, same);
      assert forall k :: 0 <= k < n ==> pre[k] == obs[k];
      var t0 := Run(pre, duration, same);
      var t := Run(obs, duration, same);
      if obs[n].seen.None? {
        assert t == t0;
      } else if t0.recorded.None? || !same(t0.recorded.value, obs[n].seen.value) {
        assert t == Tracker(obs[n].seen, obs[n].at);
        assert obs[n].seen == t.recorded && obs[n].at == t.since;
      } else {
        assert t == t0;
        var j :| 0 <= j < n && pre[j].seen == t0.recorded && pre[j].at == t0.since
            && forall k :: j < k < n && pre[k].seen.Some? ==> same(t0.recorded.value, pre[k].seen.value);
        assert obs[j].seen == t.recorded && obs[j].at == t.since;
      }
    }
  }

  /**
   * A stability condition succeeds only after a sighting to which every later
   * sighting, the current one included, stayed `same` for at least `duration`.
   */
  lemma SucceedsOnlyWhenStable<T>(obs: seq<Sighting<T>>, next: Sighting<T>, duration: real, same: (T, T) -> bool)
    requires Step(Run(obs, duration, same), next, duration, same).1
    ensures next.seen.Some?
    ensures exists j :: (0 <= j < |obs| && obs[j].seen.Some? && same(obs[j].seen.value, next.seen.value)
      && next.at - obs[j].at >= duration
      && forall k :: j < k < |obs| && obs[k].seen.Some? ==> same(obs[j].seen.value, obs[k].seen.value))
  {
    RunHistory(obs, duration, same);
  }

  /** A 2D position, as reported by the accessibility API or the OCR match centre. */
  type Point = (real, real)

  /** Within 2 pixels: the Euclidean distance is at most 2, compared here through its square. */
  predicate Near(p: Point, q: Point) {
    (p.0 - q.0) * (p.0 - q.0) + (p.1 - q.1) * (p.1 - q.1) <= 4.0
  }

  /** `ElementClickableCondition`: found coordinates must stay within 2 px for `stabilityDuration`. */
  class ElementClickable {
    const stabilityDuration: real
    var lastPosition: Option<Point>
    var stableSince: real
    var lastResult: Option<Point>

    constructor(stabilityDuration: real)
      ensures this.stabilityDuration == stabilityDuration
      ensures lastPosition == None && lastResult == None
    {
      this.stabilityDuration := stabilityDuration;
      lastPosition := None;
      stableSince := 0.0;
      lastResult := None;
    }

    /**
     * `check`, given the coordinates found by the lookups (None when both failed
     * or raised) and the current time. On success the coordinates are kept for
     * `get_coordinates`.
     */
    method Check(found: Option<Point>, now: real) returns (ok: bool)
      modifies this
      ensures var r := Step(Tracker(old(lastPosition), old(stableSince)), Sighting(found, now), stabilityDuration, Near);
        ok == r.1 && Tracker(lastPosition, stableSince) == r.0
      ensures lastResult == if ok then found else old(lastResult)
    {
      if found.None? {
        return false;
      }
      if lastPosition.None? {
        lastPosition := found;
        stableSince := now;
        return false;
      }
      if Near(lastPosition.value, found.value) {
        if now - stableSince >= stabilityDuration {
          lastResult := found;
          return true;
        }
      } else {
        lastPosition := found;
        stableSince := now;
      }
      return false;
    }
  }

  /** `np.count_nonzero` over the pixels of a difference image. */
  function CountNonZero(pixels: seq<int>): (n: nat)
    ensures n <= |pixels|
    ensures n == 0 <==> forall i :: 0 <= i < |pixels| ==> pixels[i] == 0
    ensures n == |pixels| <==> forall i :: 0 <= i < |pixels| ==> pixels[i] != 0
  {
    if pixels == [] then 0
    else
      var n := CountNonZero(pixels[..|pixels| - 1]);
      assert forall i :: 0 <= i < |pixels| - 1 ==> pixels[..|pixels| - 1][i] == pixels[i];
      if pixels[|pixels| - 1] != 0 then n + 1 else n
  }

  /**
   * `_calculate_similarity`: the share of unchanged pixels in the difference
   * image (None when an OpenCV call raised). An image without pixels divides
   * by zero, which is caught like any error: 0.0.
   */
  function Similarity(diff: Option<seq<int>>): (r: real)
    ensures 0.0 <= r <= 1.0
    ensures r == 1.0 <==> diff.Some? && |diff.value| > 0 && forall i :: 0 <= i < |diff.value| ==> diff.value[i] == 0
    ensures diff.None? || |diff.value| == 0 ==> r == 0.0
  {
    if diff.None? || |diff.value| == 0 then 0.0
    else 1.0 - (CountNonZero(diff.value) as real) / (|diff.value| as real)
  }

  /** Two screenshots count as the same screen when their similarity reaches the threshold. */
  function SameScreen<Image>(absDiff: (Image, Image) -> Option<seq<int>>, threshold: real): (Image, Image) -> bool {
    (a: Image, b: Image) => Similarity(absDiff(a, b)) >= threshold
  }

  /** `ScreenStableCondition`; `absDiff` is the greyscale, resized absolute difference OpenCV computes. */
  class ScreenStable<Image> {
    const stabilityDuration: real
    const similarityThreshold: real
    const absDiff: (Image, Image) -> Option<seq<int>>
    var firstScreenshot: Option<Image>
    var stableSince: real

    constructor(stabilityDuration: real, similarityThreshold: real, absDiff: (Image, Image) -> Option<seq<int>>)
      ensures this.stabilityDuration == stabilityDuration && this.similarityThreshold == similarityThreshold
      ensures this.absDiff == absDiff && firstScreenshot == None
    {
      this.stabilityDuration := stabilityDuration;
      this.similarityThreshold := similarityThreshold;
      this.absDiff := absDiff;
      firstScreenshot := None;
      stableSince := 0.0;
    }

    /** `check`, given the screenshot (None when none could be taken) and the current time. */
    method Check(shot: Option<Image>, now: real) returns (ok: bool)
      modifies this
      ensures var r := Step(Tracker(old(firstScreenshot), old(stableSince)), Sighting(shot, now),
                            stabilityDuration, SameScreen(absDiff, similarityThreshold));
        ok == r.1 && Tracker(firstScreenshot, stableSince) == r.0
    {
      if shot.None? {
        return false;
      }
      if firstScreenshot.None? {
        firstScreenshot := shot;
        stableSince := now;
        return false;
      }
      var similarity := Similarity(absDiff(firstScreenshot.value, shot.value));
      if similarity >= similarityThreshold {
        if now - stableSince >= stabilityDuration {
          return true;
        }
      } else {
        firstScreenshot := shot;
        stableSince := now;
      }
      return false;
    }
  }

  /** A screen without any changed pixel is stable under every threshold up to 1. */
  lemma IdenticalScreensAreSame<Image>(absDiff: (Image, Image) -> Option<seq<int>>, threshold: real, a: Image, b: Image)
    requires threshold <= 1.0
    requires absDiff(a, b).Some? && |absDiff(a, b).value| > 0
    requires forall i :: 0 <= i < |absDiff(a, b).value| ==> absDiff(a, b).value[i] == 0
    ensures SameScreen(absDiff, threshold)(a, b)
  {
  }

  // ---------------------------------------------------------------- disappearance

  /** What the lookups of a condition ended with. */
  datatype Lookup = Found(p: Point) | NotFound | LookupRaised

  /** `ElementDisappearedCondition.check`: gone exactly when nothing was found without an error. */
  function Disappeared(l: Lookup): (gone: bool)
    ensures gone <==> l == NotFound
  {
    match l
    case Found(_) => false
    case NotFound => true
    case LookupRaised => false
  }

  // ---------------------------------------------------------------- composition

  datatype Logic = And | Or

  datatype ConditionError = ValueError

  /** `MultipleCondition.__init__`: the logic string, upper-cased, must be "AND" or "OR". */
  function ParseLogic(logic: string): (r: Result<Logic, ConditionError>)
    ensures r == Ok(And) <==> Text.Upper(logic) == "AND"
    ensures r == Ok(Or) <==> Text.Upper(logic) == "OR"
    ensures r.Err? <==> Text.Upper(logic) != "AND" && Text.Upper(logic) != "OR"
  {
    var u := Text.Upper(logic);
    if u == "AND" then Ok(And) else if u == "OR" then Ok(Or) else Err(ValueError)
  }

  /**
   * `MultipleCondition.check` over the results of every sub-condition (the list
   * is built before combining, so each sub-condition is checked).
   */
  function Combine(logic: Logic, results: seq<bool>): (b: bool)
    ensures logic == And ==> (b <==> forall i :: 0 <= i < |results| ==> results[i])
    ensures logic == Or ==> (b <==> exists i :: 0 <= i < |results| && results[i])
  {
    if results == [] then logic == And
    else
      var pre := Combine(logic, results[..|results| - 1]);
      assert forall i :: 0 <= i < |results| - 1 ==> results[..|results| - 1][i] == results[i];
      if logic == And then pre && results[|results| - 1] else pre || results[|results| - 1]
  }

  /** `connector.join(parts)`. */
  function JoinWith(parts: seq<string>, connector: string): (s: string)
    ensures |parts| == 0 ==> s == ""
    ensures |parts| > 0 ==> |s| == Lengths(parts) + (|parts| - 1) * |connector|
    ensures |parts| > 0 ==> s[..|parts[0]|] == parts[0]
  {
    if parts == [] then ""
    else if |parts| == 1 then parts[0]
    else parts[0] + connector + JoinWith(parts[1..], connector)
  }

  function Lengths(parts: seq<string>): nat {
    if parts == [] then 0 else |parts[0]| + Lengths(parts[1..])
  }

  /** `MultipleCondition.description`: the sub-descriptions in parentheses, joined by " AND " or " OR ". */
  function Description(logic: Logic, descriptions: seq<string>): (s: string)
    ensures |s| >= 2 && s[0] == '(' && s[|s| - 1] == ')'
    ensures |descriptions| == 1 ==> s == "(" + descriptions[0] + ")"
    ensures |descriptions| > 0 ==> |s| == 2 + Lengths(descriptions) + (|descriptions| - 1) * (if logic == And then 5 else 4)
  {
    "(" + JoinWith(descriptions, if logic == And then " AND " else " OR ") + ")"
  }

  // ---------------------------------------------------------------- waiting

  /** What one `condition.check` call did. */
  datatype CheckOutcome = Met | NotMet | CheckRaised

  /** `WaitResult` without its value; `raised` says whether an error was attached. */
  datatype WaitResult = WaitResult(success: bool, timeout: bool, raised: bool, elapsed: real, attempts: nat)

  /** `timeout or self.default_timeout`: None and 0 fall back to the default. */
  function EffectiveTimeout(timeout: Option<real>, default: real): (t: real)
    ensures timeout.Some? && timeout.value != 0.0 ==> t == timeout.value
    ensures timeout.None? || timeout == Some(0.0) ==> t == default
  {
    if timeout.Some? && timeout.value != 0.0 then timeout.value else default
  }

  /**
   * The loop from attempt `k` on; `elapsed(k)` is the time since the start when
   * attempt `k` begins, and `horizon` is an attempt by which the timeout has
   * passed (the clock advances).
   */
  function WaitFrom(k: nat, t: real, elapsed: nat -> real, check: nat -> CheckOutcome, horizon: nat): WaitResult
    requires 1 <= k <= horizon && elapsed(horizon) >= t
    decreases horizon - k
  {
    var e := elapsed(k);
    if check(k) == Met then WaitResult(true, false, false, e, k)
    else if e >= t then WaitResult(false, true, check(k) == CheckRaised, e, k)
    else WaitFrom(k + 1, t, elapsed, check, horizon)
  }

  /**
   * `_wait_for_condition`: attempts are numbered from 1; the first check that
   * holds ends the wait successfully, and an attempt starting at or after the
   * timeout ends it with a timeout.
   */
  method WaitForCondition(timeout: Option<real>, defaultTimeout: real, elapsed: nat -> real,
                          check: nat -> CheckOutcome, ghost horizon: nat) returns (r: WaitResult)
    requires horizon >= 1 && elapsed(horizon) >= EffectiveTimeout(timeout, defaultTimeout)
    ensures r == WaitFrom(1, EffectiveTimeout(timeout, defaultTimeout), elapsed, check, horizon)
  {
    var t := if timeout.Some? && timeout.value != 0.0 then timeout.value else defaultTimeout;
    var attempts: nat := 0;
    while true
      invariant attempts < horizon
      invariant WaitFrom(1, t, elapsed, check, horizon) == WaitFrom(attempts + 1, t, elapsed, check, horizon)
      decreases horizon - attempts
    {
      attempts := attempts + 1;
      var e := elapsed(attempts);
      var outcome := check(attempts);
      if outcome == Met {
        return WaitResult(true, false, false, e, attempts);
      }
      if outcome == CheckRaised && e >= t {
        return WaitResult(false, true, true, e, attempts);
      }
      if e >= t {
        return WaitResult(false, true, false, e, attempts);
      }
    }
  }

  /**
   * The wait succeeds at the first attempt whose check holds, before which
   * every attempt started before the timeout; otherwise it times out at the
   * first attempt starting at or after the timeout. Either way the result is a
   * success or a timeout, never a bare failure.
   */
  lemma {:induction false} WaitFromMeaning(k: nat, t: real, elapsed: nat -> real, check: nat -> CheckOutcome, horizon: nat)
    requires 1 <= k <= horizon && elapsed(horizon) >= t
    ensures var r := WaitFrom(k, t, elapsed, check, horizon);
      && k <= r.attempts <= horizon
      && r.success != r.timeout
      && (r.success <==> check(r.attempts) == Met)
      && r.elapsed == elapsed(r.attempts)
      && (r.timeout ==> elapsed(r.attempts) >= t && r.raised == (check(r.attempts) == CheckRaised))
      && forall j :: k <= j < r.attempts ==> check(j) != Met && elapsed(j) < t
    decreases horizon - k
  {
    if check(k) != Met && elapsed(k) < t {
      WaitFromMeaning(k + 1, t, elapsed, check, horizon);
    }
  }

  // ---------------------------------------------------------------- expectations

  /** The five `ExpectationSystem` assertions. */
  datatype Expectation =
    | ElementVisible(text: string)
    | TextVisible(text: string)
    | ScreenToBeStable
    | ElementToBeClickable(text: string)
    | ElementToDisappear(text: string)

  /** The condition description a `WaitTimeoutError` carries. */
  function ExpectationDescription(e: Expectation): string {
    match e
    case ElementVisible(text) => "Element '" + text + "' to be visible"
    case TextVisible(text) => "Text '" + text + "' to be visible"
    case ScreenToBeStable => "Screen to be stable"
    case ElementToBeClickable(text) => "Element '" + text + "' to be clickable"
    case ElementToDisappear(text) => "Element '" + text + "' to disappear"
  }

  /** Visibility and clickability return the found value; the other two return True. */
  predicate ReturnsValue(e: Expectation) {
    e.ElementVisible? || e.TextVisible? || e.ElementToBeClickable?
  }

  datatype Returned<V> = ValueOf(v: V) | TrueValue

  datatype Raised = WaitTimeoutError(description: string, timeout: real, attempts: nat) | GenericException

  /** The raise/return rule shared by the `ExpectationSystem` methods. */
  function Expect<V>(e: Expectation, r: WaitResult, value: V, timeout: Option<real>, defaultTimeout: real): (o: Result<Returned<V>, Raised>)
    ensures o.Ok? <==> r.success
    ensures o.Ok? ==> o.value == if ReturnsValue(e) then ValueOf(value) else TrueValue
    ensures !r.success && r.timeout ==>
      o == Err(WaitTimeoutError(ExpectationDescription(e), EffectiveTimeout(timeout, defaultTimeout), r.attempts))
    ensures o == Err(GenericException) <==> !r.success && !r.timeout
  {
    if !r.success then
      if r.timeout then Err(WaitTimeoutError(ExpectationDescription(e), EffectiveTimeout(timeout, defaultTimeout), r.attempts))
      else Err(GenericException)
    else if ReturnsValue(e) then Ok(ValueOf(value))
    else Ok(TrueValue)
  }

  /**
   * Because the wait loop only ever ends in success or timeout, an expectation
   * never raises the generic exception: it returns or raises `WaitTimeoutError`.
   */
  lemma ExpectNeverGeneric<V>(e: Expectation, timeout: Option<real>, defaultTimeout: real, elapsed: nat -> real,
                              check: nat -> CheckOutcome, horizon: nat, value: V)
    requires horizon >= 1 && elapsed(horizon) >= EffectiveTimeout(timeout, defaultTimeout)
    ensures var r := WaitFrom(1, EffectiveTimeout(timeout, defaultTimeout), elapsed, check, horizon);
      var o := Expect(e, r, value, timeout, defaultTimeout);
      o.Ok? || o.error.WaitTimeoutError?
  {
    WaitFromMeaning(1, EffectiveTimeout(timeout, defaultTimeout), elapsed, check, horizon);
  }
}
