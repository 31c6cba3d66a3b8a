# BrowserGeist core, modelled in Dafny

BrowserGeist drives a desktop browser the way a person would. A Python SDK sends
commands to a native daemon. A vision engine finds targets on the screen by
template matching and OCR. Around the engine sit a CAPTCHA detector and solver
chain, wait conditions, user personas and a command-line front end.

This project models the decision logic of that core and proves what it promises:

- the template matcher's strategies, its fallback cascade and `find_text`;
- the least-recently-used, time-limited template cache;
- CAPTCHA detection, reply parsing, 2Captcha polling and the solver fallback;
- the wait conditions and the wait loop;
- the persona session state and registry;
- the SDK's request framing, reply handling, statistics, persona adaptation and
  context-aware text targeting;
- the command line's configuration loading, `config set`, `doctor`, `daemon`,
  `run` and exit codes.

OpenCV, SIFT/FLANN, pytesseract and `difflib` only produce numbers, so here they
are inputs: peaks, scores, token tables, line angles, an arbitrary ratio function.
The same goes for the clock, random draws, the network, the daemon process and
the file system. What remains is the selection and bookkeeping logic.

Modules, one per component (files directly in this directory):

| file | module | source |
|---|---|---|
| wrappers.dfy | `Wrappers` | `Option`/`Result` |
| json.dfy | `JsonValues` | decoded JSON and Python truthiness |
| text.dfy | `Text` | `str.strip`, ASCII `lower`/`upper`, `in`, `split` |
| selection.dfy | `Selection` | the best-so-far scan the matchers share |
| vision_results.dfy | `MatchResults` | `MatchResult`, method labels, `get_monitor_at_point` |
| vision_cache.dfy | `TemplateCache` | `VisionCache` |
| vision_matchers.dfy | `Matchers` | `find_template`, the matchers, `find_template_with_fallbacks` |
| vision_multiple.dfy | `MultiMatch` | `find_multiple` |
| vision_text.dfy | `TextMatch` | `find_text` |
| captcha_detect.dfy | `CaptchaDetection` | `CaptchaDetector` |
| captcha_solve.dfy | `CaptchaSolving` | the OpenAI parser, 2Captcha, `CaptchaSolver` |
| wait.dfy | `WaitConditions` | `wait_conditions.py` |
| personas.dfy | `Personas` | `user_personas.py` |
| sdk.dfy | `Sdk` | `HumanMouse` in `browsergeist.py` |
| cli.dfy | `Cli` | `src/cli/main.py`, `src/cli/commands.py` |

State the source changes in place is modelled as classes:

- `VisionCache`;
- the stability conditions;
- `UserPersona` and the persona registry;
- the SDK's socket and counters;
- the command line's configuration.

Each method on these classes is proved against a specification function. The
loops of the matchers, the polls, the solver fallback, the doctor tally and the
proximity scoring are `while`/`for` loops, each proved equal to the function
that specifies it.

Where the code departs from what its own docstrings, messages and tests
suggest, the model follows the code:

- `find_template_with_fallbacks` calls itself a "comprehensive fallback
  strategy" (src/vision/template_matcher.py:319). Yet `_match_template` and
  `_match_multi_scale` have no exception handler (template_matcher.py:144-187
  and 263-313). An OpenCV error in a template scan therefore escapes the
  cascade instead of falling through to the next stage.
- The docstring of `find_text` says it "requires pytesseract"
  (template_matcher.py:404). Without it the code prints a warning and returns
  None (template_matcher.py:478-483). It does not raise.
- `_get_solution` is documented as waiting for the solution, with a default
  wait of 120 seconds (src/python_sdk/captcha_solver.py:608-609). It polls
  `max_wait // 5` times (captcha_solver.py:612), so a `max_wait` below 5 polls
  nothing (`ShortWaitPollsNothing`).
- Request frames are big-endian, as the SDK writes and reads them
  (src/python_sdk/browsergeist.py:280-283). The stealth tests frame their
  messages little-endian (tests/detection/test_keyboard_stealth.py:65-71,
  tests/detection/simple_keyboard_test.py:28-34).
- `ExpectationSystem` has a branch that raises a generic "Failed to ..."
  exception when a wait fails without a timeout
  (src/python_sdk/wait_conditions.py:520-527). `_wait_for_condition` only ever
  returns a success or a timeout (wait_conditions.py:468-505), so that branch
  is unreachable (`ExpectNeverGeneric`).
- `cmd_doctor` lists an error check whose fix raises twice: once when the
  error is reported and once in the exception handler
  (src/cli/commands.py:107-119).
- The fix offered for a daemon binary that is not executable is
  `lambda: os.chmod(...)` (commands.py:467). `os.chmod` returns None, so
  `doctor` always reports that fix as failed. The model takes each fix's
  outcome as an input.
- A configuration file whose `daemon` section lacks `auto_start` makes
  `cmd_run` raise `KeyError` whenever the daemon is down, and `main` then exits
  1. This is because the merge with the defaults is one level deep
  (`MainRunWithoutAutoStart`).
- A configuration file that decodes to something other than an object makes
  `{**defaults, **doc}` raise `TypeError` while the command line is constructed.
- `click_near_text` cannot return normally (see Findings).
- `main` has an "Unknown command" branch that returns 1
  (src/cli/main.py:286-288). It cannot be reached: `parse_args`
  (main.py:267) already exits with status 2 for a word that names no
  subcommand (`MainExit`).

## Model

| member | source | states |
|---|---|---|
| MatchResults.Locate | src/vision/template_matcher.py:174-185 | a result's centre lies inside its box, at half the width and height rounded down |
| MatchResults.BottomRight | src/vision/template_matcher.py:39-41 | the bottom-right corner is the top-left corner moved by the width and height |
| MatchResults.NatTextValue | src/vision/template_matcher.py:309 | the decimal rendering used in method labels reads back as the number it renders |
| MatchResults.MethodText | src/vision/template_matcher.py:341-346 | a low-confidence result's label is its stage label followed by "_low_confidence" |
| MatchResults.MonitorAt | src/vision/template_matcher.py:578-584 | None exactly when no monitor covers the point (half-open bounds); otherwise a listed monitor that covers it |
| MatchResults.MonitorAtIsFirst | src/vision/template_matcher.py:578-584 | the monitor returned is the first covering one in list order |
| Selection.BestIndexIsFirstMaximum | src/vision/template_matcher.py:163-185 | the best-so-far scan ends empty exactly when no candidate reaches the threshold above 0, and otherwise on the first candidate of maximal score |
| Selection.BestIndexCharacterised | src/vision/template_matcher.py:163-185 | both directions: the scan ends on index i exactly when i holds the first maximum among qualifying candidates |
| Selection.BestQualifies | src/vision/template_matcher.py:163-185 | an accepted score is at least the threshold and strictly above 0 |
| Selection.BestMonotoneInThreshold | src/vision/template_matcher.py:315-348 | lowering the threshold never turns a found result into none |
| Matchers.FormulaCandidate | src/vision/template_matcher.py:163-185 | a formula's candidate is labelled "template" and has the template's size |
| Matchers.MatchTemplate | src/vision/template_matcher.py:144-187 | the formula loop equals the specification: a raising formula escapes, otherwise the first best qualifying formula in the order CCOEFF, CCORR, SQDIFF |
| Matchers.ScaleCandidate | src/vision/template_matcher.py:280-311 | a scale is used only when the scaled template fits the screenshot and is at least 10 pixels each way; its result has the scaled size and the scale's label |
| Matchers.MatchMultiScale | src/vision/template_matcher.py:263-313 | the scale loop equals the best-so-far scan over the 16 scales 0.5 to 2.0 |
| Matchers.MultiScaleResultFits | src/vision/template_matcher.py:263-313 | a multi-scale result comes from a tried scale in [0.5, 2.0] and its box fits the screenshot |
| Matchers.TransformCandidate | src/vision/template_matcher.py:372-395 | a preprocessed candidate is labelled with its preprocessing |
| Matchers.MatchWithPreprocessing | src/vision/template_matcher.py:350-397 | the preprocessing loop equals the scan over the five transforms, where a failing transform is skipped |
| Matchers.GoodCount | src/vision/template_matcher.py:210-218 | the number of ratio-test survivors is at most the number of neighbour lists |
| Matchers.CountGoodMatches | src/vision/template_matcher.py:210-218 | the ratio-test loop counts the pairs of two neighbours whose first distance is below 0.7 times the second |
| Matchers.Trunc | src/vision/template_matcher.py:238-241 | Python's `int()` on a float truncates toward zero and stays within 1 of its argument |
| Matchers.Min4 | src/vision/template_matcher.py:235-241 | the box's left/top edge is one of the projected corners and no corner lies beyond it |
| Matchers.Max4 | src/vision/template_matcher.py:235-241 | the box's right/bottom edge is one of the projected corners and no corner lies beyond it |
| Matchers.MatchFeatures | src/vision/template_matcher.py:189-261 | feature matching equals its specification; every failure gives None |
| Matchers.FeatureResultEvidence | src/vision/template_matcher.py:203-259 | a feature result needs at least 10 template descriptors, 10 ratio-test survivors and a homography; its inlier ratio reaches the threshold and is its confidence; its left and top edges lie within 1 of the least projected corner coordinate, and its right and bottom edges within (-1, 2) of the greatest, the slack of `int()` on the minimum and on the span |
| Matchers.EdgesNear | src/vision/template_matcher.py:240-243 | the truncated minimum and truncated span of four corner coordinates bracket them, with a non-negative span |
| Matchers.InlierRatioBounded | src/vision/template_matcher.py:247-255 | with a 0/1 mask the inlier ratio is a fraction in [0, 1] |
| Matchers.FindTemplateErrors | src/vision/template_matcher.py:57-99 | `find_template` fails exactly for an unknown method name (ValueError) or an OpenCV error in a template scan |
| Matchers.FindTemplateTags | src/vision/template_matcher.py:74-99 | each method name runs only its own matcher; "auto" reports no multi-scale result when that is disabled |
| Matchers.BestTagged | src/vision/template_matcher.py:163-185 | the scan's result is one of the candidates, so it carries their common label |
| Matchers.BestMultiScale | src/vision/template_matcher.py:263-313 | a multi-scale result is labelled with its scale |
| Matchers.BestPreprocessedTag | src/vision/template_matcher.py:350-397 | a preprocessing result is labelled with its preprocessing |
| Matchers.CascadeGuardsImplied | src/vision/template_matcher.py:321-344 | the guards `confidence >= threshold` of the cascade stages never reject a stage's result |
| Matchers.CascadeStage | src/vision/template_matcher.py:315-348 | a cascade result's label names the stage that produced it, and every earlier stage came back empty |
| Matchers.LowConfidenceNeedsHighThreshold | src/vision/template_matcher.py:331-346 | the last, low-confidence stage can only fire when 0.8c exceeds 0.5 |
| MultiMatch.SlicePrefix | src/vision/template_matcher.py:129 | `rects[:max_matches]` with Python slice rules, including a negative bound |
| MultiMatch.RectResults | src/vision/template_matcher.py:129-140 | one result per kept rectangle, in order, scored at its top-left corner |
| MultiMatch.Insert | src/vision/template_matcher.py:142 | one insertion step of the stable sort adds exactly the new element |
| MultiMatch.SortByConfidence | src/vision/template_matcher.py:142 | the sort is a permutation of its input |
| MultiMatch.InsertDescending | src/vision/template_matcher.py:142 | inserting into a descending list keeps it descending |
| MultiMatch.SortByConfidenceSorted | src/vision/template_matcher.py:142 | the sort orders by descending confidence |
| MultiMatch.FindMultiple | src/vision/template_matcher.py:101-142 | `find_multiple` is the sorted results of the kept rectangles |
| MultiMatch.FindMultipleMeaning | src/vision/template_matcher.py:101-142 | one result per kept rectangle, in descending confidence, each labelled `template_multi` with the rectangle's box |
| TextMatch.Similarity | src/vision/template_matcher.py:441-448 | 1.0 when the word contains the target, 0.95 when the target contains the word, otherwise the fuzzy ratio |
| TextMatch.WordCandidate | src/vision/template_matcher.py:429-439 | a word is considered only when non-blank and at least the OCR confidence |
| TextMatch.RoundHundredths | src/vision/template_matcher.py:474 | the label's hundredths lie within half a hundredth of the similarity, and a tie goes to the even hundredth, as `:.2f` rounds |
| TextMatch.FuzzyLabelTieToEven | src/vision/template_matcher.py:474 | a similarity of 0.625 is labelled `ocr_fuzzy(0.62)` |
| TextMatch.FindText | src/vision/template_matcher.py:399-483 | the token loop equals the specification of `find_text` |
| TextMatch.FoundTextMeaning | src/vision/template_matcher.py:425-475 | a found text is the first non-blank word of maximal similarity with enough OCR confidence and similarity, boxed as OCR reported it, with confidence 0.7 × similarity + 0.3 × OCR confidence; none when OCR is missing or no word qualifies |
| TextMatch.SimilarityBounded | src/vision/template_matcher.py:436-443 | with a ratio in [0, 1] every similarity is in [0, 1] |
| TextMatch.ContainedTargetIsExact | src/vision/template_matcher.py:441-443 | a confident word containing the cleaned target is a perfect match |
| TemplateCache.OldestIndex | src/vision/template_matcher.py:623 | `min` over the access times picks the least time, and the earliest inserted key among equal times |
| TemplateCache.Evicted | src/vision/template_matcher.py:621-626 | the eviction loop keeps every remaining key's access time |
| TemplateCache.EvictedSize | src/vision/template_matcher.py:621-626 | after eviction the cache holds fewer than `max_size` entries when that is positive, and none otherwise |
| TemplateCache.EvictsLeastRecent | src/vision/template_matcher.py:621-626 | no kept entry was accessed earlier than an evicted one |
| TemplateCache.EvictedFacts | src/vision/template_matcher.py:621-626 | eviction only removes keys and keeps them distinct |
| TemplateCache.EvictedAgree | src/vision/template_matcher.py:621-626 | which entries are evicted depends only on the access times of the cached keys |
| TemplateCache.OldestIndexLocal | src/vision/template_matcher.py:623 | the victim depends only on the access times of the cached keys |
| TemplateCache.Without | src/vision/template_matcher.py:606-608 | deleting an expired key removes exactly that key |
| TemplateCache.WithoutFacts | src/vision/template_matcher.py:606-608 | deleting a present key shortens the key list by one |
| TemplateCache.VisionCache.constructor | src/vision/template_matcher.py:590-594 | a new cache is empty in both dictionaries |
| TemplateCache.OldestKey | src/vision/template_matcher.py:623 | the scan of `min` finds the specified victim |
| TemplateCache.VisionCache.AddToCache | src/vision/template_matcher.py:619-628 | succeeds exactly when `max_size` is positive; evicts the specified entries and stores the new one; with `max_size` ≤ 0 it empties the cache and raises; both dictionaries keep the same keys |
| TemplateCache.VisionCache.SizeAfterAdd | src/vision/template_matcher.py:619-628 | with a positive `max_size` the cache never exceeds it after an insertion |
| TemplateCache.VisionCache.Store | src/vision/template_matcher.py:627-628 | both dictionaries receive the key; an existing key keeps its place in the order |
| TemplateCache.VisionCache.EvictAt | src/vision/template_matcher.py:624-625 | one eviction removes the key from both dictionaries |
| TemplateCache.VisionCache.GetTemplate | src/vision/template_matcher.py:596-627 | a hit needs an entry strictly younger than the TTL and refreshes its access time; an expired entry is deleted from both dictionaries before reloading; a loaded template is added; with `max_size` below 1 the add empties both dictionaries and then raises from `min()` on nothing |
| TemplateCache.VisionCache.Drop | src/vision/template_matcher.py:606-608 | an expired entry is deleted from both dictionaries |
| TemplateCache.VisionCache.Clear | src/vision/template_matcher.py:630-633 | `clear` empties both dictionaries |
| CaptchaDetection.PaddedBoxInside | src/python_sdk/captcha_solver.py:117-122 | the padded, clamped box lies inside the image and covers the matched area inside it |
| CaptchaDetection.DetectByTemplate | src/python_sdk/captcha_solver.py:105-133 | the template loop equals its specification, and a raising scan escapes |
| CaptchaDetection.TemplateDetectionFirst | src/python_sdk/captcha_solver.py:109-131 | the winning template is the first scoring strictly above 0.7, and every earlier one scanned and scored at most 0.7 |
| CaptchaDetection.TextDetection | src/python_sdk/captcha_solver.py:135-170 | a text challenge exactly when OCR text exists and contains one of the indicators |
| CaptchaDetection.HorizontalCount | src/python_sdk/captcha_solver.py:185-191 | at most one count per line |
| CaptchaDetection.VerticalCount | src/python_sdk/captcha_solver.py:185-191 | at most one count per line |
| CaptchaDetection.CountsDisjoint | src/python_sdk/captcha_solver.py:185-191 | no line counts as both horizontal and vertical |
| CaptchaDetection.CountLines | src/python_sdk/captcha_solver.py:181-191 | the counting loop equals the two counts |
| CaptchaDetection.PatternDetection | src/python_sdk/captcha_solver.py:172-202 | a grid needs more than 20 lines |
| CaptchaDetection.HorizontalCountIsCardinality | src/python_sdk/captcha_solver.py:185-191 | the horizontal count is the number of lines within 0.2 rad of 0 or of pi |
| CaptchaDetection.VerticalCountIsCardinality | src/python_sdk/captcha_solver.py:185-191 | the vertical count is the number of other lines within 0.2 rad of pi/2 |
| CaptchaDetection.CountsGrow | src/python_sdk/captcha_solver.py:185-191 | more lines never lower either count |
| CaptchaDetection.PatternDetectionMonotone | src/python_sdk/captcha_solver.py:181-200 | further lines never turn a detected grid into no detection, and the detection stays the same |
| CaptchaDetection.DetectRejectsInvalid | src/python_sdk/captcha_solver.py:80-86 | an empty screenshot, one with fewer than two dimensions, or one under 10 pixels either way gives None |
| CaptchaDetection.DetectCascade | src/python_sdk/captcha_solver.py:69-103 | template, then text, then pattern: each later detector fires only when the earlier ones found nothing, and every box lies inside the screenshot |
| CaptchaSolving.CreatePrompt | src/python_sdk/captcha_solver.py:291-310 | the shared instructions followed by the text suffix, the grid suffix or the generic suffix by challenge type |
| CaptchaSolving.Coordinates | src/python_sdk/captcha_solver.py:327 | the comprehension keeps at most one pair per element |
| CaptchaSolving.CoordinatesMeaning | src/python_sdk/captcha_solver.py:327 | the comprehension raises exactly when some element raises, and otherwise keeps the objects having both "x" and "y", in order |
| CaptchaSolving.ParseOpenAiOutcomes | src/python_sdk/captcha_solver.py:312-341 | "UNSOLVABLE" after stripping is a failure; a JSON list gives coordinates; anything else is a text solution; all are labelled OpenAI |
| CaptchaSolving.OkField | src/python_sdk/captcha_solver.py:605 | `split('\|')[1]` of an "OK\|" reply is the text up to the next '\|' |
| CaptchaSolving.SubmitReply | src/python_sdk/captcha_solver.py:589-606 | an id exactly when the reply starts with "OK\|", and then it is the field after it |
| CaptchaSolving.GetSolution | src/python_sdk/captcha_solver.py:608-630 | the polling loop equals its specification over `max_wait // 5` polls |
| CaptchaSolving.PollFromMeaning | src/python_sdk/captcha_solver.py:611-630 | a solution comes from a poll within the limit after only "CAPCHA_NOT_READY" replies; out of polls gives None |
| CaptchaSolving.ShortWaitPollsNothing | src/python_sdk/captcha_solver.py:608-612 | a `max_wait` under 5 seconds polls nothing and gives None |
| CaptchaSolving.GetSolver | src/python_sdk/captcha_solver.py:703-711 | each method to its solver, present exactly when its key is truthy (manual always); any other value to None |
| CaptchaSolving.MethodOrder | src/python_sdk/captcha_solver.py:681 | `methods or self.solve_order`: never empty; a non-empty list is used as given |
| CaptchaSolving.DetectAndSolve | src/python_sdk/captcha_solver.py:660-701 | no challenge gives None, a detection error escapes, otherwise the solver fallback runs |
| CaptchaSolving.TrySolversMeaning | src/python_sdk/captcha_solver.py:683-701 | the result is the first configured solver's success, all earlier ones being unconfigured or failed; otherwise "All solving methods failed" and no configured solver succeeded |
| CaptchaSolving.DefaultOrderWithoutKeys | src/python_sdk/captcha_solver.py:647-658 | without API keys only the manual solver is consulted |
| WaitConditions.Step | src/python_sdk/wait_conditions.py:201-225 | a check succeeds exactly when the sighting is the same as the recorded one and has held for the duration; nothing seen leaves the state as it was |
| WaitConditions.RunHistory | src/python_sdk/wait_conditions.py:201-225 | the state records nothing until the first sighting, then a sighting to which every later one stayed the same |
| WaitConditions.SucceedsOnlyWhenStable | src/python_sdk/wait_conditions.py:201-225 | success needs an earlier sighting that every later one, the current one included, matched for at least the duration |
| WaitConditions.ElementClickable.constructor | src/python_sdk/wait_conditions.py:170-177 | starts with nothing recorded |
| WaitConditions.ElementClickable.Check | src/python_sdk/wait_conditions.py:179-228 | the stability step with "within 2 pixels"; on success the coordinates are kept |
| WaitConditions.CountNonZero | src/python_sdk/wait_conditions.py:332-334 | zero exactly when every pixel is zero, the total exactly when none is |
| WaitConditions.Similarity | src/python_sdk/wait_conditions.py:318-340 | in [0, 1]; exactly 1 for an unchanged non-empty image; 0 on an error or an empty image |
| WaitConditions.ScreenStable.constructor | src/python_sdk/wait_conditions.py:282-286 | starts without a first screenshot |
| WaitConditions.ScreenStable.Check | src/python_sdk/wait_conditions.py:288-316 | the stability step with "similarity reaches the threshold" |
| WaitConditions.IdenticalScreensAreSame | src/python_sdk/wait_conditions.py:296-313 | an unchanged screen is stable under any threshold up to 1 |
| WaitConditions.Disappeared | src/python_sdk/wait_conditions.py:246-273 | gone exactly when nothing was found and no lookup raised |
| WaitConditions.ParseLogic | src/python_sdk/wait_conditions.py:349-353 | AND or OR after upper-casing, ValueError otherwise |
| WaitConditions.Combine | src/python_sdk/wait_conditions.py:355-361 | AND is all of the results, OR any of them |
| WaitConditions.JoinWith | src/python_sdk/wait_conditions.py:363-366 | the join has the parts' lengths plus the connectors and starts with the first part |
| WaitConditions.Description | src/python_sdk/wait_conditions.py:363-366 | parenthesised, and as long as the parts joined by " AND " or " OR " |
| WaitConditions.EffectiveTimeout | src/python_sdk/wait_conditions.py:470 | None and 0 fall back to the default timeout |
| WaitConditions.WaitForCondition | src/python_sdk/wait_conditions.py:468-505 | the wait loop equals its specification, attempts numbered from 1 |
| WaitConditions.WaitFromMeaning | src/python_sdk/wait_conditions.py:470-503 | success at the first attempt whose check holds, all earlier attempts starting before the timeout; otherwise a timeout at the first attempt that starts at or after it and whose check does not hold; never a bare failure |
| WaitConditions.Expect | src/python_sdk/wait_conditions.py:514-585 | returns the value (or True) exactly on success; raises `WaitTimeoutError` with the description, timeout and attempts on a timeout, a generic exception otherwise |
| WaitConditions.ExpectNeverGeneric | src/python_sdk/wait_conditions.py:468-585 | an expectation never raises the generic exception |
| Personas.MouseFatigueFactor | src/python_sdk/user_personas.py:146 | never below 0.7, and near 1 for the fatigue a session can reach |
| Personas.TypingFatigueFactor | src/python_sdk/user_personas.py:156 | never below 0.8, and near 1 for the fatigue a session can reach |
| Personas.AdjustedSpeedBounds | src/python_sdk/user_personas.py:140-158 | an adjusted speed lies between the base scaled down by the variance, the lowest level and the factor, and the base scaled up by the variance and the highest level |
| Personas.Fatigue | src/python_sdk/user_personas.py:160-170 | at most 0.5, non-negative for a non-negative session, exactly 0.5 once the rate times the minutes reaches it |
| Personas.FatigueMonotone | src/python_sdk/user_personas.py:160-170 | a longer session is never less tiring |
| Personas.FatigueByExperience | src/python_sdk/user_personas.py:160-170 | experts tire no faster than intermediate users, who tire no faster than beginners |
| Personas.Clamp | src/python_sdk/user_personas.py:175-180 | the result is in [0.5, 1.5], and equals its argument inside that range |
| Personas.ClampStep | src/python_sdk/user_personas.py:172-180 | from a level in range, a clamped step moves the level by at most the step |
| Personas.UserPersona.constructor | src/python_sdk/user_personas.py:123-138 | a new persona starts fresh: energy and focus 1, no fatigue |
| Personas.UserPersona.AdjustedMouseSpeed | src/python_sdk/user_personas.py:140-148 | with the session in range, between base × (1 − v) × 0.5 × 0.95 and base × (1 + v) × 1.5 |
| Personas.UserPersona.AdjustedTypingSpeed | src/python_sdk/user_personas.py:150-158 | with the session in range, between wpm × (1 − v) × 0.5 × 0.975 and wpm × (1 + v) × 1.5 |
| Personas.UserPersona.AccumulateFatigue | src/python_sdk/user_personas.py:160-170 | fatigue is set from the session length, not added to; energy and focus are untouched; the session stays in range |
| Personas.UserPersona.UpdateSessionState | src/python_sdk/user_personas.py:172-180 | both levels are the clamped sums and end in [0.5, 1.5] whatever they were |
| Personas.PersonaRegistry.constructor | src/python_sdk/user_personas.py:455-459 | three distinct shared persona objects, created once |
| Personas.PersonaRegistry.GetPersona | src/python_sdk/user_personas.py:462-466 | the registered object itself exactly for a registered name; otherwise the error naming the available keys |
| Personas.PersonaRegistry.ListPersonas | src/python_sdk/user_personas.py:469-471 | the keys in registry order, exactly the names `get_persona` accepts |
| Personas.PersonaRegistry.GetPersonaSummary | src/python_sdk/user_personas.py:474-479 | each registered name with its persona's description, in registry order |
| Personas.RegistryProfilesInRange | src/python_sdk/user_personas.py:184-459 | every registered persona meets the conditions of the speed bounds |
| Sdk.FromBigEndian4 | src/python_sdk/browsergeist.py:283 | four big-endian bytes denote a number below 2^32 |
| Sdk.ToBigEndian4 | src/python_sdk/browsergeist.py:280 | `to_bytes(4, 'big')` reads back as the length |
| Sdk.Frame | src/python_sdk/browsergeist.py:279-280 | a frame exists exactly for a message under 2^32 bytes: its length in four big-endian bytes, then the message |
| Sdk.FrameRoundTrip | src/python_sdk/browsergeist.py:279-284 | reading a written frame gives the message back and leaves what follows untouched |
| Sdk.ReadFrameWritten | src/python_sdk/browsergeist.py:283-284 | every frame read was written exactly so |
| Sdk.Injective4 | src/python_sdk/browsergeist.py:280-283 | four bytes are determined by the number they encode |
| Sdk.HandleResponse | src/python_sdk/browsergeist.py:292-310 | success when "success" is absent or truthy, with the reply as data; otherwise no data, error code defaulting to "COMMAND_FAILED" and message defaulting to "Unknown error" |
| Sdk.SendOutcomeCounters | src/python_sdk/browsergeist.py:269-326 | a command is counted exactly when a reply was decoded; an error exactly when the call raises or fails; the socket is dropped only on a lost connection |
| Sdk.Session.constructor | src/python_sdk/browsergeist.py:116-137 | no socket and zero counters |
| Sdk.Session.SendCommand | src/python_sdk/browsergeist.py:269-326 | the counters and socket change as the specification of `_send_command` says |
| Sdk.Session.GetSessionStats | src/python_sdk/browsergeist.py:891-898 | the rate is commands over the duration, dividing by at least one second, and never exceeds the count |
| Sdk.InitializePersona | src/python_sdk/browsergeist.py:148-160 | None to None, a name to the registry lookup (error with the available names), a persona to itself, any other type to TypeError |
| Sdk.ReplaceChar | src/python_sdk/browsergeist.py:202 | `replace` of one character by another, position by position |
| Sdk.Slug | src/python_sdk/browsergeist.py:202 | the persona part of the profile name has no spaces and the name's length |
| Sdk.AdaptMotionProfile | src/python_sdk/browsergeist.py:189-209 | the base profile without a persona; otherwise velocity from the speed, acceleration 2.5 times it, jitter 2(1 − precision), the overshoot tendency, and dwell in seconds |
| Sdk.AdaptTyping | src/python_sdk/browsergeist.py:211-235 | the text unchanged; without a persona only the base profile; otherwise the profile by typing style, the adjusted speed and the persona's rates |
| Sdk.WhereKept | src/python_sdk/browsergeist.py:1013-1033 | every position the token filter lists is that of a token the filter accepts |
| Sdk.KeptWhere | src/python_sdk/browsergeist.py:1013-1033 | every accepted token's position is listed |
| Sdk.PositionsKept | src/python_sdk/browsergeist.py:1013-1033 | every listed position is that of a confident, non-blank token containing the text, case-insensitively after stripping |
| Sdk.KeptListed | src/python_sdk/browsergeist.py:1013-1033 | every such token's position is listed |
| Sdk.CollectPositions | src/python_sdk/browsergeist.py:1013-1033 | the token loop builds both position lists in one pass |
| Sdk.RowCandidates | src/python_sdk/browsergeist.py:1040-1051 | one pair per nearby position, in order |
| Sdk.PairCandidates | src/python_sdk/browsergeist.py:1039-1051 | the nested loops visit every pair, target by target |
| Sdk.ScoreRow | src/python_sdk/browsergeist.py:1040-1051 | the inner loop continues the scan, or reports the division by a zero maximum distance |
| Sdk.ScoreNearLoop | src/python_sdk/browsergeist.py:1036-1051 | the nested loops equal the scoring specification |
| Sdk.ScoreNearMeaning | src/python_sdk/browsergeist.py:1036-1051 | nothing exactly when no pair within the distance scores above 0; otherwise the first pair of maximal score, within the distance |
| Sdk.PairScoreBounded | src/python_sdk/browsergeist.py:1042-1047 | with confidences in [0, 1] and a positive distance bound, a pair's score is in [0, 1] |
| Sdk.AsWrittenRejectsImages | src/python_sdk/browsergeist.py:994-996 | as written, any screenshot of more than one pixel fails the `not screenshot` test with ValueError |
| Sdk.AsWrittenNeverSucceeds | src/python_sdk/browsergeist.py:1053-1068 | as written, `click_near_text` never returns, even after a successful click |
| Sdk.ClickNearTextMeaning | src/python_sdk/browsergeist.py:975-1068 | as intended: success exactly when a screenshot and tokens exist, some pair scores and the click succeeds, clicking the first best pair's target; a missing pytesseract is OCR_UNAVAILABLE, every other failure CONTEXT_ERROR |
| Sdk.FindInputFieldNear | src/python_sdk/browsergeist.py:855-871 | the first search point lies right of the label's box at its centre height |
| Cli.LoadConfig | src/cli/main.py:51-91 | the defaults (saved) without a usable file; otherwise the file's sections over the defaults, one level deep; TypeError exactly when the file is not an object |
| Cli.FileSectionReplacesDefault | src/cli/main.py:84 | a file section replaces the default section whole, so a daemon section without `auto_start` leaves none |
| Cli.ParseValue | src/cli/commands.py:231-235 | the decoded JSON when it decodes, the raw text otherwise |
| Cli.SetPath | src/cli/commands.py:228-245 | only the first key is added at the top level, every other section is unchanged, and a deeper path leaves a dictionary there |
| Cli.DescendBlockedMeaning | src/cli/commands.py:237-242 | the walk fails exactly when an existing entry on the path is not a dictionary |
| Cli.SetPathSucceeds | src/cli/commands.py:237-245 | setting succeeds exactly when the walk to the leaf's parent does |
| Cli.SetPathFailsMeaning | src/cli/commands.py:237-254 | `config set` fails exactly when an existing entry above the leaf is not a dictionary |
| Cli.SetThenLookup | src/cli/commands.py:228-245 | after a set, following the key path yields the value |
| Cli.SetLeavesOtherPaths | src/cli/commands.py:237-245 | every path that leaves the key path reads the same before and after |
| Cli.RemoveFirst | src/cli/commands.py:114 | `list.remove` drops exactly the first occurrence |
| Cli.TallyLength | src/cli/commands.py:92-119 | the issue list is as long as the checks' contributions |
| Cli.ContributionsEmpty | src/cli/commands.py:92-125 | no issues exactly when no check fails |
| Cli.TallyIsContributions | src/cli/commands.py:92-119 | with distinct names, the issue list is the failing checks in order |
| Cli.Doctor | src/cli/commands.py:76-131 | the loop builds the specified issue list; exit 0 exactly when no check fails, 1 otherwise |
| Cli.CheckConfiguration | src/cli/commands.py:516-528 | valid exactly when the daemon and motion sections are dictionaries when present |
| Cli.ConfigurationCheck | src/cli/commands.py:516-528 | the configuration check fails in `doctor` exactly when the configuration is invalid |
| Cli.SetKeepsConfigurationValid | src/cli/commands.py:225-253 | a set below the top level, or of another section, keeps the configuration valid |
| Cli.DaemonCommand | src/cli/commands.py:133-195 | 1 without or with an unknown action; start and stop succeed when there is nothing to do and act only then; status reports whether the daemon runs |
| Cli.LastIndexOf | src/cli/commands.py:25 | the last position of the character, or -1 |
| Cli.FinalName | src/cli/commands.py:25 | a file name holds no '/' and is not "." |
| Cli.PySuffix | src/cli/commands.py:31-33 | the suffix is ".py" exactly when the name ends in ".py" after at least one other character |
| Cli.AutoStart | src/cli/commands.py:37 | `config["daemon"]["auto_start"]` exists exactly when the daemon section is an object holding it |
| Cli.RunCommand | src/cli/commands.py:23-74 | 1 for a missing or non-".py" path before any daemon check; a start only when the daemon is down and auto-start is on; 0 exactly when the script ran to completion; it raises exactly when the auto-start lookup fails with the daemon down |
| Cli.MainExit | src/cli/main.py:217-295 | 1 without a subcommand; 2 when the parser rejects a word naming no subcommand, the empty word included; the handler's code for a known one; 130 when interrupted; 1 for any other exception |
| Cli.MainDoctor | src/cli/main.py:269-295 | `browsergeist doctor` exits 0 exactly when no check fails |
| Cli.MainRunWithoutAutoStart | src/cli/main.py:84 | a file daemon section without `auto_start` makes `run` exit 1 while the daemon is down, without starting it |
| Cli.CommandLine.constructor | src/cli/main.py:35-46 | the configuration is the loaded one, and the defaults are saved when no file was usable |
| Cli.CommandLine.ConfigSet | src/cli/commands.py:225-253 | on success the configuration is the set result and is saved, exit 0; on a non-dictionary nothing changes or is saved, exit 1 |
| Text.BlankIffAllSpace | src/vision/template_matcher.py:431 | `not text.strip()` exactly when every character is white space |
| Text.SplitJoin | src/cli/commands.py:228 | joining the split parts with the separator gives the key back |
| Text.SplitHead | src/cli/commands.py:228 | the first part is the text up to the first separator |

## Left out

- OpenCV, SIFT/FLANN, `findHomography`, `groupRectangles`, pytesseract and `difflib` are not modelled. Their results are inputs, and the fuzzy ratio is an arbitrary function.
- Floating point is modelled as exact reals. Rounding is ignored, except that `int()` on a float is written out as truncation.
- `str.lower`/`str.upper` are modelled on ASCII only. There is no Unicode case folding.
- Monitor discovery (`_get_monitor_info`, `find_template_all_monitors`) is subprocess and socket plumbing and is not modelled.
- Socket, file, HTTP and daemon I/O, `time.sleep`, the clock, the Flask webserver and `input()` are not modelled; their outcomes are inputs. Short socket reads are not modelled.
- `json.dumps`/`json.loads` and UTF-8 encoding are not modelled. A request is a byte sequence, and decoding is an input function.
- The asyncio SDK (`async_browsergeist.py`) is a concurrency layer over the same framing and is not modelled.
- `random.uniform` draws are not modelled. They are inputs bounded by their intervals.
- Printed and logged messages, and the text of exception messages, are not modelled.
- The distance `sqrt` in `click_near_text` is an input function.
- Persona profile fields that the SDK does not read are not modelled. Neither are the cognitive profile or the factory functions' remaining constants.
- The SDK methods that rely on the undefined `self.vision` or on `CommandResult.details` are not modelled (`click_text`, `click_image`, `type_in_field`, `find_and_click_any`, `safe_*`). Neither is `_find_target_image`, nor the duplicated `close`/`__enter__`/`__exit__`.
- `_take_screenshot` is not modelled. It reads `details` from a `CommandResult` and cannot succeed as written.
- `cmd_config` show/edit, `cmd_debug`, `cmd_version`, `_start_daemon`/`_stop_daemon` and the health checks themselves are not modelled. They are I/O, and their results are inputs.
- `pathlib` normalisation is modelled only as far as `/` separators and `.` components.
- Dictionary iteration order is modelled only where it matters: the cache key order and the persona registry order.
- WaitConditions.WaitForCondition: requires an attempt by which the clock has passed the timeout, because a clock that never advances would make the source loop forever.
- Cli.CommandLine.constructor: requires a loadable configuration, because a non-object file makes the constructor raise. `LoadConfig` models that error.
- Argument parsing beyond the subcommand word is not modelled: options, missing positional arguments and `--help`, which argparse answers by exiting (with 2 or 0) before dispatch.
- TextMatch.RoundHundredths: ties are broken to even on the exact real value. Python formats the nearest double, so for a similarity with no exact binary value, such as 0.675, the last digit of the label can differ.
- Cli.CommandLine.ConfigSet: the source mutates the nested dictionaries in place through aliases; the model rebuilds the configuration with `SetPath`. An `IOError` while saving is ignored by the source and is not modelled.

## Findings

| source | as written | input that shows it | evidently intended | confidence | as-written member | corrected member |
|---|---|---|---|---|---|---|
| src/python_sdk/browsergeist.py:1053-1059 | after a successful click, `click_near_text` assigns `click_result.details`, which `CommandResult` does not define; the `AttributeError` is caught and re-raised as a CONTEXT_ERROR `VisionError` | a one-pixel screenshot `[1]`, OCR tokens with a target and a nearby word 10 pixels apart, a successful click | return the click's result with the targeting details | not executed | Sdk.AsWrittenNeverSucceeds | Sdk.ClickNearTextMeaning |
| src/python_sdk/browsergeist.py:994-996 | `if not screenshot` on a NumPy image raises `ValueError` for any image of more than one pixel; the test lies outside the handler, so the `ValueError` escapes | any captured screenshot of two or more pixels | test the screenshot against None | not executed | Sdk.AsWrittenRejectsImages | Sdk.ClickNearTextMeaning |
