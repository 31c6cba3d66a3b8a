/**
 * Solving side of `src/python_sdk/captcha_solver.py`: the OpenAI prompt and
 * reply parser, the 2Captcha reply parsing and polling, solver lookup and the
 * solver fallback of `CaptchaSolver.detect_and_solve`. HTTP, the webserver and
 * the solvers' own work are inputs: what each request or solver returned.
 */
module CaptchaSolving {
  import opened Wrappers
  import opened JsonValues
  import Text
  import CaptchaDetection

  /** `CaptchaSolveMethod`, plus any other value a caller may pass in a method list. */
  datatype SolveMethod = OpenAi | Manual | TwoCaptcha | OtherMethod(value: string)

  /** `CaptchaSolution`; coordinates are the JSON values found under "x" and "y". */
  datatype Solution = Solution(
    success: bool,
    solution: Option<string>,
    coordinates: Option<seq<(Json, Json)>>,
    methodUsed: Option<SolveMethod>,
    error: Option<string>)

  // ---------------------------------------------------------------- OpenAI

  const BasePrompt: string :=
    "\nYou are a CAPTCHA solving assistant. Analyze this image and provide the solution.\n\nResponse format:\n"
    + "- For text CAPTCHAs: Return only the text/numbers shown\n"
    + "- For image selection CAPTCHAs: Return coordinates as JSON array like [{\"x\": 100, \"y\": 150}, {\"x\": 200, \"y\": 250}]\n"
    + "- For checkbox CAPTCHAs: Return \"checkbox\" to indicate clicking the checkbox\n"
    + "- If unsolvable: Return \"UNSOLVABLE\"\n\n"
    + "Important: Only return the solution, no explanation or additional text.\n"

  const TextSuffix: string := "\nThis appears to be a text-based CAPTCHA. Please read and return the text/numbers shown."
  const GridSuffix: string := "\nThis appears to be an image selection CAPTCHA. Return coordinates of items to click."
  const GenericSuffix: string := "\nPlease analyze this CAPTCHA and provide the appropriate solution."

  /** `_create_prompt`: the shared instructions followed by one instruction chosen by challenge type. */
  function CreatePrompt(kind: string): (p: string)
    ensures |p| > |BasePrompt| && p[..|BasePrompt|] == BasePrompt
    ensures kind == "text_based" ==> p[|BasePrompt|..] == TextSuffix
    ensures kind == "grid_pattern" ==> p[|BasePrompt|..] == GridSuffix
    ensures kind != "text_based" && kind != "grid_pattern" ==> p[|BasePrompt|..] == GenericSuffix
  {
    var suffix := if kind == "text_based" then TextSuffix else if kind == "grid_pattern" then GridSuffix else GenericSuffix;
    assert (BasePrompt + suffix)[..|BasePrompt|] == BasePrompt;
    BasePrompt + suffix
  }

  /** An exception raised while reading the reply (a `TypeError` from `in` or indexing); it escapes the parser. */
  datatype ParseError = TypeError

  /**
   * What the comprehension does with one element: an object with both keys
   * yields its pair; strings and lists that contain both "x" and "y" are then
   * indexed with a string and raise; numbers, booleans and null raise on `in`;
   * anything else is skipped.
   */
  function CoordinateOf(v: Json): Result<Option<(Json, Json)>, ParseError> {
    match v
    case Obj(f) => if "x" in f && "y" in f then Ok(Some((f["x"], f["y"]))) else Ok(None)
    case Str(s) => if Text.Contains(s, "x") && Text.Contains(s, "y") then Err(TypeError) else Ok(None)
    case Arr(items) => if Str("x") in items && Str("y") in items then Err(TypeError) else Ok(None)
    case Num(_) => Err(TypeError)
    case Bool(_) => Err(TypeError)
    case Null => Err(TypeError)
  }

  /** The list comprehension over the decoded list, element by element in order. */
  function Coordinates(items: seq<Json>): (r: Result<seq<(Json, Json)>, ParseError>)
    ensures r.Ok? ==> |r.value| <= |items|
  {
    if items == [] then Ok([])
    else
      var pre := Coordinates(items[..|items| - 1]);
      var last := CoordinateOf(items[|items| - 1]);
      if pre.Err? then pre
      else if last.Err? then Err(last.error)
      else if last.value.Some? then Ok(pre.value + [last.value.value])
      else pre
  }

  /** The comprehension fails exactly when some element raises, and otherwise keeps the objects having both keys. */
  lemma {:induction false} CoordinatesMeaning(items: seq<Json>)
    ensures Coordinates(items).Err? <==> exists i :: 0 <= i < |items| && CoordinateOf(items[i]).Err?
    ensures Coordinates(items).Ok? ==> forall k :: 0 <= k < |Coordinates(items).value| ==>
      exists i :: 0 <= i < |items| && items[i].Obj? && "x" in items[i].fields && "y" in items[i].fields &&
        Coordinates(items).value[k] == (items[i].fields["x"], items[i].fields["y"])
  {
    if items != [] {
      var pre := items[..|items| - 1];
      var n := |items| - 1;
      CoordinatesMeaning(pre);
      assert forall i :: 0 <= i < |pre| ==> pre[i] == items[i];
      var r := Coordinates(items);
      var last := CoordinateOf(items[n]);
      if r.Ok? && Coordinates(pre).Ok? && last.Ok? && last.value.Some? {
        assert r.value == Coordinates(pre).value + [last.value.value];
        forall k | 0 <= k < |r.value|
          ensures exists i :: (0 <= i < |items| && items[i].Obj? && "x" in items[i].fields && "y" in items[i].fields &&
            r.value[k] == (items[i].fields["x"], items[i].fields["y"]))
        {
          if k == |r.value| - 1 {
            assert items[n].Obj? && r.value[k] == (items[n].fields["x"], items[n].fields["y"]);
          } else {
            assert r.value[k] == Coordinates(pre).value[k];
          }
        }
      }
    }
  }

  /**
   * `_parse_openai_response`: the stripped reply; "UNSOLVABLE" is a failure, a
   * reply that decodes to a JSON list gives coordinates, anything else (not JSON,
   * or JSON that is not a list) is a text solution. `decode` is `json.loads`,
   * None on a decoding error.
   */
  function ParseOpenAiResponse(content: string, decode: string -> Option<Json>): Result<Solution, ParseError> {
    var c := Text.Strip(content);
    if c == "UNSOLVABLE" then
      Ok(Solution(false, None, None, Some(OpenAi), Some("OpenAI indicated CAPTCHA is unsolvable")))
    else
      var d := decode(c);
      if d.Some? && d.value.Arr? then
        var cs := Coordinates(d.value.items);
        if cs.Err? then Err(cs.error) else Ok(Solution(true, None, Some(cs.value), Some(OpenAi), None))
      else Ok(Solution(true, Some(c), None, Some(OpenAi), None))
  }

  /** The three outcomes of the parser, each with its condition. */
  lemma ParseOpenAiOutcomes(content: string, decode: string -> Option<Json>)
    ensures var r := ParseOpenAiResponse(content, decode); var c := Text.Strip(content);
      && (c == "UNSOLVABLE" ==> r.Ok? && !r.value.success && r.value.methodUsed == Some(OpenAi))
      && (c != "UNSOLVABLE" && r.Ok? ==> r.value.success && r.value.methodUsed == Some(OpenAi))
      && (c != "UNSOLVABLE" && r.Ok? && r.value.solution.Some? ==> r.value.solution == Some(c) && !(decode(c).Some? && decode(c).value.Arr?))
      && (r.Err? <==> c != "UNSOLVABLE" && decode(c).Some? && decode(c).value.Arr? &&
                      exists i :: 0 <= i < |decode(c).value.items| && CoordinateOf(decode(c).value.items[i]).Err?)
  {
    var c := Text.Strip(content);
    if decode(c).Some? && decode(c).value.Arr? {
      CoordinatesMeaning(decode(c).value.items);
    }
  }

  // ---------------------------------------------------------------- 2Captcha

  predicate StartsWithOk(reply: string) {
    |reply| >= 3 && reply[..3] == "OK|"
  }

  /** `reply.split('|')[1]` for a reply starting "OK|": the text up to the next '|'. */
  function OkField(reply: string): (f: string)
    requires StartsWithOk(reply)
    ensures '|' !in f
    ensures f == Text.Split(reply, '|')[1]
  {
    assert reply[2] == '|' && reply[0] != '|' && reply[1] != '|';
    assert Text.IndexOf(reply, '|') == 2 by {
      assert '|' !in reply[..2];
    }
    assert reply[3..] == reply[2 + 1..];
    var rest := Text.Split(reply[3..], '|');
    assert forall j :: 0 <= j < |rest[0]| ==> rest[0][j] != '|';
    rest[0]
  }

  /** `_submit_captcha`'s reading of the submission reply: the id after "OK|", else None. */
  function SubmitReply(reply: string): (id: Option<string>)
    ensures id.Some? <==> StartsWithOk(reply)
    ensures id.Some? ==> |reply| >= 3 + |id.value| && reply[..3 + |id.value|] == "OK|" + id.value && '|' !in id.value &&
                         (|reply| == 3 + |id.value| || reply[3 + |id.value|] == '|')
  {
    if StartsWithOk(reply) then
      var f := OkField(reply);
      FieldIsPrefix(reply[3..], f);
      Some(f)
    else None
  }

  /** The first split field is a prefix ending at the end or at a separator. */
  lemma FieldIsPrefix(s: string, f: string)
    requires f == Text.Split(s, '|')[0]
    ensures |f| <= |s| && s[..|f|] == f && (|s| == |f| || s[|f|] == '|')
  {
    Text.SplitHead(s, '|');
  }

  /** One poll of `res.php`: its text, or an exception from the request. */
  datatype Poll = Reply(text: string) | PollRaised

  datatype RequestError = RequestRaised

  /** The number of polls, `max_wait // 5` (floor division; a negative count polls nothing). */
  function PollCount(maxWait: int): int {
    maxWait / 5
  }

  /** Polls `i` up to `n`: continue on "CAPCHA_NOT_READY", stop on anything else. */
  function PollFrom(poll: nat -> Poll, i: nat, n: int): Result<Option<string>, RequestError>
    decreases n - i
  {
    if i >= n then Ok(None)
    else match poll(i)
      case PollRaised => Err(RequestRaised)
      case Reply(t) =>
        if t == "CAPCHA_NOT_READY" then PollFrom(poll, i + 1, n)
        else if StartsWithOk(t) then Ok(Some(OkField(t)))
        else Ok(None)
  }

  /** `_get_solution`; `poll(i)` is the reply to the i-th request (the sleeps are not modelled). */
  method GetSolution(maxWait: int, poll: nat -> Poll) returns (r: Result<Option<string>, RequestError>)
    ensures r == PollFrom(poll, 0, PollCount(maxWait))
  {
    var n := maxWait / 5;
    var i: nat := 0;
    while i < n
      invariant PollFrom(poll, 0, n) == PollFrom(poll, i, n)
      decreases n - i
    {
      match poll(i) {
        case PollRaised =>
          return Err(RequestRaised);
        case Reply(t) =>
          if t == "CAPCHA_NOT_READY" {
            i := i + 1;
            continue;
          } else if StartsWithOk(t) {
            return Ok(Some(OkField(t)));
          } else {
            return Ok(None);
          }
      }
    }
    r := Ok(None);
  }

  /**
   * A solution comes from a poll within the first `max_wait // 5`, all of whose
   * predecessors were "CAPCHA_NOT_READY"; fewer than 5 seconds of waiting poll nothing.
   */
  lemma {:induction false} PollFromMeaning(poll: nat -> Poll, i: nat, n: int)
    ensures var r := PollFrom(poll, i, n);
      r.Ok? && r.value.Some? ==> exists k :: (i <= k < n && poll(k).Reply? && StartsWithOk(poll(k).text)
        && r.value.value == OkField(poll(k).text)
        && forall j :: i <= j < k ==> poll(j) == Reply("CAPCHA_NOT_READY"))
    ensures n <= i ==> PollFrom(poll, i, n) == Ok(None)
    decreases n - i
  {
    if i < n && poll(i) == Reply("CAPCHA_NOT_READY") {
      PollFromMeaning(poll, i + 1, n);
    }
  }

  lemma ShortWaitPollsNothing(maxWait: int, poll: nat -> Poll)
    requires maxWait < 5
    ensures PollFrom(poll, 0, PollCount(maxWait)) == Ok(None)
  {
  }

  // ---------------------------------------------------------------- orchestration

  /** The solver objects `CaptchaSolver` holds. */
  datatype SolverKind = OpenAiSolver | ManualSolver | TwoCaptchaSolver

  /** Constructor arguments: a solver needing a key exists only when the key is truthy. */
  datatype SolverConfig = SolverConfig(openAiKey: Option<string>, twoCaptchaKey: Option<string>)

  predicate Truthy(key: Option<string>) {
    key.Some? && key.value != ""
  }

  /** `_get_solver`: each enum value to its solver (None when not configured), anything else to None. */
  function GetSolver(cfg: SolverConfig, m: SolveMethod): (s: Option<SolverKind>)
    ensures m == OpenAi ==> (s.Some? <==> Truthy(cfg.openAiKey)) && (s.Some? ==> s.value == OpenAiSolver)
    ensures m == Manual ==> s == Some(ManualSolver)
    ensures m == TwoCaptcha ==> (s.Some? <==> Truthy(cfg.twoCaptchaKey)) && (s.Some? ==> s.value == TwoCaptchaSolver)
    ensures m.OtherMethod? ==> s.None?
  {
    match m
    case OpenAi => if Truthy(cfg.openAiKey) then Some(OpenAiSolver) else None
    case Manual => Some(ManualSolver)
    case TwoCaptcha => if Truthy(cfg.twoCaptchaKey) then Some(TwoCaptchaSolver) else None
    case OtherMethod(_) => None
  }

  const DefaultOrder: seq<SolveMethod> := [OpenAi, Manual, TwoCaptcha]

  /** `methods or self.solve_order`: None and the empty list both fall back. */
  function MethodOrder(methods: Option<seq<SolveMethod>>): (ms: seq<SolveMethod>)
    ensures ms != []
    ensures methods.Some? && methods.value != [] ==> ms == methods.value
  {
    if methods.Some? && methods.value != [] then methods.value else DefaultOrder
  }

  const AllFailed := Solution(false, None, None, None, Some("All solving methods failed"))

  /** Methods from position `i` on; `attempt(i)` is what the solver of the i-th method returned. */
  function TrySolvers(cfg: SolverConfig, ms: seq<SolveMethod>, attempt: nat -> Solution, i: nat): Solution
    decreases |ms| - i
  {
    if i >= |ms| then AllFailed
    else if GetSolver(cfg, ms[i]).None? then TrySolvers(cfg, ms, attempt, i + 1)
    else if attempt(i).success then attempt(i)
    else TrySolvers(cfg, ms, attempt, i + 1)
  }

  /**
   * `detect_and_solve`: no challenge gives None, an exception from detection
   * escapes, otherwise the solvers are tried in order.
   */
  method DetectAndSolve(detected: Result<Option<CaptchaDetection.Challenge>, CaptchaDetection.DetectError>,
                        cfg: SolverConfig, methods: Option<seq<SolveMethod>>, attempt: nat -> Solution)
    returns (r: Result<Option<Solution>, CaptchaDetection.DetectError>)
    ensures detected.Err? ==> r == Err(detected.error)
    ensures detected == Ok(None) ==> r == Ok(None)
    ensures detected.Ok? && detected.value.Some? ==> r == Ok(Some(TrySolvers(cfg, MethodOrder(methods), attempt, 0)))
  {
    if detected.Err? {
      return Err(detected.error);
    }
    if detected.value.None? {
      return Ok(None);
    }
    var ms := if methods.Some? && methods.value != [] then methods.value else DefaultOrder;
    var i := 0;
    while i < |ms|
      invariant 0 <= i <= |ms|
      invariant TrySolvers(cfg, ms, attempt, 0) == TrySolvers(cfg, ms, attempt, i)
    {
      var solver := GetSolver(cfg, ms[i]);
      if solver.Some? {
        var solution := attempt(i);
        if solution.success {
          return Ok(Some(solution));
        }
      }
      i := i + 1;
    }
    r := Ok(Some(AllFailed));
  }

  /**
   * The fallback: a successful result is the first configured method's success,
   * every earlier method being unconfigured or failed; otherwise the result is
   * the "All solving methods failed" failure, and then no configured method succeeded.
   */
  lemma {:induction false} TrySolversMeaning(cfg: SolverConfig, ms: seq<SolveMethod>, attempt: nat -> Solution, i: nat)
    ensures var r := TrySolvers(cfg, ms, attempt, i);
      && (r.success ==> exists k :: (i <= k < |ms| && GetSolver(cfg, ms[k]).Some? && r == attempt(k)
            && forall j :: i <= j < k ==> GetSolver(cfg, ms[j]).None? || !attempt(j).success))
      && (!r.success <==> forall j :: i <= j < |ms| ==> GetSolver(cfg, ms[j]).None? || !attempt(j).success)
      && (!r.success ==> r == AllFailed)
    decreases |ms| - i
  {
    if i < |ms| {
      TrySolversMeaning(cfg, ms, attempt, i + 1);
    }
  }

  /** With neither key, only the manual solver is ever consulted among the defaults. */
  lemma DefaultOrderWithoutKeys(attempt: nat -> Solution)
    ensures TrySolvers(SolverConfig(None, None), DefaultOrder, attempt, 0) ==
      (if attempt(1).success then attempt(1) else AllFailed)
  {
  }
}
