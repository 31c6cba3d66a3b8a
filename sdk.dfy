/**
 * The client side of `src/python_sdk/browsergeist.py`: the length-prefixed
 * request framing, how `_send_command` turns a daemon reply into a
 * `CommandResult` and keeps the session counters, the persona plumbing
 * (`_initialize_persona`, `_adapt_motion_profile_for_persona`,
 * `_adapt_typing_for_persona`), the context-aware scoring of `click_near_text`
 * and `_find_input_field_near`. Socket traffic, OCR and the distance's square
 * root are inputs.
 */
module Sdk {
  import opened Wrappers
  import opened JsonValues
  import Text
  import Selection
  import Personas
  import MatchResults

  // ---------------------------------------------------------------- framing

  type Byte = b: int | 0 <= b < 256

  const Two32: nat := 0x1_0000_0000

  /** `int.from_bytes(bs, 'big')`. */
  function FromBigEndian(bs: seq<Byte>): nat {
    if bs == [] then 0 else FromBigEndian(bs[..|bs| - 1]) * 256 + bs[|bs| - 1]
  }

  /** The value of four big-endian bytes. */
  lemma FromBigEndian4(bs: seq<Byte>)
    requires |bs| == 4
    ensures FromBigEndian(bs) == (bs[0] as int) * 16777216 + (bs[1] as int) * 65536 + (bs[2] as int) * 256 + (bs[3] as int)
    ensures FromBigEndian(bs) < Two32
  {
    var b3 := bs[..3];
    var b2 := b3[..2];
    var b1 := b2[..1];
    assert b1[..0] == [];
    assert FromBigEndian(b1) == bs[0] as int;
    assert FromBigEndian(b2) == (bs[0] as int) * 256 + (bs[1] as int);
    assert FromBigEndian(b3) == ((bs[0] as int) * 256 + (bs[1] as int)) * 256 + (bs[2] as int);
  }

  /** `n.to_bytes(4, 'big')` for a length that fits. */
  function ToBigEndian4(n: nat): (bs: seq<Byte>)
    requires n < Two32
    ensures |bs| == 4 && FromBigEndian(bs) == n
  {
    var b0 := n / 16777216;
    var r0 := n % 16777216;
    var b1 := r0 / 65536;
    var r1 := r0 % 65536;
    var b2 := r1 / 256;
    var b3 := r1 % 256;
    var bs: seq<Byte> := [b0, b1, b2, b3];
    FromBigEndian4(bs);
    bs
  }

  datatype FrameError = OverflowError

  /** A request frame: the 4-byte big-endian length of the message, then the message. */
  function Frame(message: seq<Byte>): (r: Result<seq<Byte>, FrameError>)
    ensures r.Ok? <==> |message| < Two32
    ensures r.Ok? ==> |r.value| == 4 + |message| && FromBigEndian(r.value[..4]) == |message| && r.value[4..] == message
  {
    if |message| < Two32 then
      var header := ToBigEndian4(|message|);
      assert (header + message)[..4] == header;
      Ok(header + message)
    else Err(OverflowError)
  }

  /**
   * Reading one frame off a byte stream: the length, then that many bytes;
   * None when the stream ends first. Returns the message and what follows it.
   */
  function ReadFrame(stream: seq<Byte>): Option<(seq<Byte>, seq<Byte>)> {
    if |stream| < 4 then None
    else
      var n := FromBigEndian(stream[..4]);
      if |stream| < 4 + n then None else Some((stream[4..4 + n], stream[4 + n..]))
  }

  /** Reading a written frame gives the message back and leaves what followed untouched. */
  lemma FrameRoundTrip(message: seq<Byte>, rest: seq<Byte>)
    requires |message| < Two32
    ensures ReadFrame(Frame(message).value + rest) == Some((message, rest))
  {
    var f := Frame(message).value;
    var s := f + rest;
    assert s[..4] == f[..4];
    assert s[4..4 + |message|] == f[4..] == message;
    assert s[4 + |message|..] == rest;
  }

  /** Conversely, every frame that is read was written exactly so. */
  lemma ReadFrameWritten(stream: seq<Byte>)
    requires ReadFrame(stream).Some?
    ensures var (message, rest) := ReadFrame(stream).value;
      Frame(message).Ok? && stream == Frame(message).value + rest
  {
    var (message, rest) := ReadFrame(stream).value;
    FromBigEndian4(stream[..4]);
    var f := Frame(message).value;
    Injective4(f[..4], stream[..4]);
    assert f == f[..4] + f[4..];
    assert stream == stream[..4] + message + rest;
  }

  /** Four bytes are determined by the number they encode. */
  lemma Injective4(a: seq<Byte>, b: seq<Byte>)
    requires |a| == 4 && |b| == 4 && FromBigEndian(a) == FromBigEndian(b)
    ensures a == b
  {
    FromBigEndian4(a);
    FromBigEndian4(b);
  }

  // ---------------------------------------------------------------- commands

  /** `CommandResult` (the execution time is not modelled). */
  datatype CommandResult = CommandResult(
    success: bool, data: map<string, Json>, errorCode: Option<Json>, errorMessage: Option<Json>)

  /**
   * A decoded reply object as `_send_command` reads it: a reply without
   * "success" succeeds; a falsy "success" fails with no data and the reply's
   * "error_code" (default "COMMAND_FAILED") and "error" (default "Unknown error").
   */
  function HandleResponse(response: map<string, Json>): (r: CommandResult)
    ensures "success" !in response ==> r.success
    ensures r.success <==> Truthy(Get(response, "success", Bool(true)))
    ensures r.success ==> r.data == response && r.errorCode.None? && r.errorMessage.None?
    ensures !r.success ==> r.data == map[]
    ensures !r.success && "error_code" !in response ==> r.errorCode == Some(Str("COMMAND_FAILED"))
    ensures !r.success && "error_code" in response ==> r.errorCode == Some(response["error_code"])
    ensures !r.success && "error" !in response ==> r.errorMessage == Some(Str("Unknown error"))
    ensures !r.success && "error" in response ==> r.errorMessage == Some(response["error"])
  {
    if !Truthy(Get(response, "success", Bool(true))) then
      CommandResult(false, map[], Some(Get(response, "error_code", Str("COMMAND_FAILED"))),
                    Some(Get(response, "error", Str("Unknown error"))))
    else CommandResult(true, response, None, None)
  }

  /** Connecting, when no socket is held: it works, or raises with the given text. */
  datatype Connect = Connected | ConnectRaised(cause: string)

  /** The exchange on the socket once a request is sent. */
  datatype Exchange =
    | Replied(response: Json)       // a reply that decoded as JSON
    | Undecodable(cause: string)    // UTF-8 or JSON decoding raised
    | TimedOut                      // `socket.timeout`
    | Raised(cause: string)         // any other error while sending or receiving

  /** The exceptions `_send_command` raises. */
  datatype SdkError = ConnectionLost | CommandFailed | CommandTimeout(action: Json)

  /** An error whose text names a broken pipe or a connection is reported as a lost connection. */
  predicate LooksLikeConnectionLoss(cause: string) {
    Text.Contains(Text.Lower(cause), "broken pipe") || Text.Contains(Text.Lower(cause), "connection")
  }

  /** What one `_send_command` does: its result, whether it counts a command and an error, and whether a socket is held afterwards. */
  datatype Transcript = Transcript(result: Result<CommandResult, SdkError>, counted: bool, failed: bool, socketAfter: bool)

  function Classify(cause: string, socketHeld: bool, counted: bool): Transcript {
    if LooksLikeConnectionLoss(cause) then Transcript(Err(ConnectionLost), counted, true, false)
    else Transcript(Err(CommandFailed), counted, true, socketHeld)
  }

  /**
   * The effect of `_send_command`. A failed connect leaves the new, unconnected
   * socket object in place (it was assigned before `connect`), unless the error
   * is classified as a lost connection. A reply that is not a JSON object makes
   * `.get` raise after the command was counted.
   */
  function SendOutcome(hasSocket: bool, command: map<string, Json>, connect: Connect, exchange: Exchange): Transcript {
    if !hasSocket && connect.ConnectRaised? then
      Classify("Failed to connect to daemon: " + connect.cause, true, false)
    else match exchange
      case TimedOut => Transcript(Err(CommandTimeout(Get(command, "action", Str("unknown")))), false, true, true)
      case Raised(cause) => Classify(cause, true, false)
      case Undecodable(cause) => Classify(cause, true, false)
      case Replied(response) =>
        if !response.Obj? then Transcript(Err(CommandFailed), true, true, true)
        else
          var r := HandleResponse(response.fields);
          Transcript(Ok(r), true, !r.success, true)
  }

  /**
   * The bookkeeping promise: a command is counted exactly when a reply was
   * decoded, an error is counted exactly when the call raises or returns a
   * failed result, and the socket is dropped only on a lost connection.
   */
  lemma SendOutcomeCounters(hasSocket: bool, command: map<string, Json>, connect: Connect, exchange: Exchange)
    ensures var t := SendOutcome(hasSocket, command, connect, exchange);
      && (t.counted <==> (hasSocket || connect.Connected?) && exchange.Replied?)
      && (t.failed <==> t.result.Err? || !t.result.value.success)
      && (!t.socketAfter <==> t.result == Err(ConnectionLost))
      && (t.result.Ok? ==> (exchange.Replied? && exchange.response.Obj? &&
            t.result.value == HandleResponse(exchange.response.fields)))
      && (exchange == TimedOut && (hasSocket || connect.Connected?) ==>
            t.result == Err(CommandTimeout(Get(command, "action", Str("unknown")))))
  {
  }

  datatype SessionStats = SessionStats(
    commandsExecuted: nat, errorsOccurred: nat, sessionStart: real, sessionDuration: real, commandsPerSecond: real)

  /** The socket and counters `HumanMouse` keeps. */
  class Session {
    var hasSocket: bool
    var commandsExecuted: nat
    var errorsOccurred: nat
    const sessionStart: real

    constructor(sessionStart: real)
      ensures this.sessionStart == sessionStart
      ensures !hasSocket && commandsExecuted == 0 && errorsOccurred == 0
    {
      this.sessionStart := sessionStart;
      hasSocket := false;
      commandsExecuted := 0;
      errorsOccurred := 0;
    }

    /** `_send_command` given what connecting and the exchange did. */
    method SendCommand(command: map<string, Json>, connect: Connect, exchange: Exchange) returns (r: Result<CommandResult, SdkError>)
      modifies this
      ensures var t := SendOutcome(old(hasSocket), command, connect, exchange);
        && r == t.result
        && commandsExecuted == old(commandsExecuted) + (if t.counted then 1 else 0)
        && errorsOccurred == old(errorsOccurred) + (if t.failed then 1 else 0)
        && hasSocket == t.socketAfter
    {
      var cause: string;
      if !hasSocket {
        hasSocket := true;
        if connect.ConnectRaised? {
          cause := "Failed to connect to daemon: " + connect.cause;
          errorsOccurred := errorsOccurred + 1;
          if LooksLikeConnectionLoss(cause) {
            hasSocket := false;
            return Err(ConnectionLost);
          }
          return Err(CommandFailed);
        }
      }
      match exchange {
        case TimedOut =>
          errorsOccurred := errorsOccurred + 1;
          return Err(CommandTimeout(Get(command, "action", Str("unknown"))));
        case Raised(c) =>
          cause := c;
        case Undecodable(c) =>
          cause := c;
        case Replied(response) =>
          commandsExecuted := commandsExecuted + 1;
          if !response.Obj? {
            errorsOccurred := errorsOccurred + 1;
            return Err(CommandFailed);
          }
          var result := HandleResponse(response.fields);
          if !result.success {
            errorsOccurred := errorsOccurred + 1;
          }
          return Ok(result);
      }
      errorsOccurred := errorsOccurred + 1;
      if LooksLikeConnectionLoss(cause) {
        hasSocket := false;
        return Err(ConnectionLost);
      }
      return Err(CommandFailed);
    }

    /** `get_session_stats` at time `now`: the rate divides by the duration, but by at least one second. */
    function GetSessionStats(now: real): (s: SessionStats)
      reads this
      ensures s.commandsExecuted == commandsExecuted && s.errorsOccurred == errorsOccurred
      ensures s.sessionDuration == now - sessionStart
      ensures 0.0 <= s.commandsPerSecond <= commandsExecuted as real
      ensures s.sessionDuration >= 1.0 ==> s.commandsPerSecond * s.sessionDuration == commandsExecuted as real
    {
      var duration := now - sessionStart;
      var divisor := if duration >= 1.0 then duration else 1.0;
      SessionStats(commandsExecuted, errorsOccurred, sessionStart, duration, (commandsExecuted as real) / divisor)
    }
  }

  // ---------------------------------------------------------------- personas

  /** The `persona` argument: None, a name, a persona object, or a value of another type. */
  datatype PersonaArg = NoPersona | PersonaName(name: string) | PersonaObject(p: Personas.UserPersona) | OtherValue

  datatype PersonaInitError = InvalidPersonaName(name: string, available: seq<string>) | PersonaTypeError

  /** `_initialize_persona`. */
  function InitializePersona(registry: Personas.PersonaRegistry, arg: PersonaArg): (r: Result<Option<Personas.UserPersona>, PersonaInitError>)
    ensures arg == NoPersona ==> r == Ok(None)
    ensures arg.PersonaObject? ==> r == Ok(Some(arg.p))
    ensures arg == OtherValue ==> r == Err(PersonaTypeError)
    ensures arg.PersonaName? ==>
      (r.Ok? <==> registry.GetPersona(arg.name).Ok?) &&
      (r.Ok? ==> r.value == Some(registry.GetPersona(arg.name).value)) &&
      (r.Err? ==> r.error == InvalidPersonaName(arg.name, registry.ListPersonas()))
  {
    match arg
    case NoPersona => Ok(None)
    case PersonaName(name) =>
      var found := registry.GetPersona(name);
      if found.Ok? then Ok(Some(found.value)) else Err(InvalidPersonaName(name, registry.ListPersonas()))
    case PersonaObject(p) => Ok(Some(p))
    case OtherValue => Err(PersonaTypeError)
  }

  /** `MotionProfile`. */
  datatype MotionProfile = MotionProfile(
    name: string, maxVelocity: real, acceleration: real, jitterAmount: real,
    overshootChance: real, dwellTimeMin: real, dwellTimeMax: real)

  const Natural := MotionProfile("natural", 800.0, 2000.0, 2.0, 0.15, 0.02, 0.08)
  const Careful := MotionProfile("careful", 400.0, 1200.0, 1.0, 0.05, 0.05, 0.12)
  const Fast := MotionProfile("fast", 1200.0, 3000.0, 3.0, 0.25, 0.01, 0.04)

  /** `s.replace(a, b)` for single characters. */
  function ReplaceChar(s: string, a: char, b: char): (r: string)
    ensures |r| == |s|
    ensures forall i :: 0 <= i < |s| ==> r[i] == if s[i] == a then b else s[i]
  {
    if s == [] then [] else [if s[0] == a then b else s[0]] + ReplaceChar(s[1..], a, b)
  }

  /** The persona part of an adapted profile name: lower-cased, spaces turned into underscores. */
  function Slug(name: string): (s: string)
    ensures |s| == |name| && ' ' !in s
  {
    ReplaceChar(Text.Lower(name), ' ', '_')
  }

  /**
   * `_adapt_motion_profile_for_persona`: without a persona the base profile;
   * otherwise the persona's speed and overshoot, acceleration 2.5 times the
   * speed, jitter growing as precision falls, and the dwell range in seconds.
   */
  function AdaptMotionProfile(persona: Option<Personas.UserPersona>, base: MotionProfile): (r: MotionProfile)
    ensures persona.None? ==> r == base
    ensures persona.Some? ==> var m := persona.value.mouse;
      && r.name == base.name + "_persona_" + Slug(persona.value.name)
      && r.maxVelocity == m.baseSpeed && r.acceleration == 2.5 * r.maxVelocity
      && r.overshootChance == m.overshootTendency
      && (0.0 <= m.precisionLevel <= 1.0 ==> 0.0 <= r.jitterAmount <= 2.0)
      && (m.precisionLevel == 1.0 ==> r.jitterAmount == 0.0)
      && r.dwellTimeMin * 1000.0 == m.dwellTimeMs.0 && r.dwellTimeMax * 1000.0 == m.dwellTimeMs.1
  {
    if persona.None? then base
    else
      var m := persona.value.mouse;
      MotionProfile(base.name + "_persona_" + Slug(persona.value.name), m.baseSpeed, m.baseSpeed * 2.5,
                    2.0 * (1.0 - m.precisionLevel), m.overshootTendency, m.dwellTimeMs.0 / 1000.0, m.dwellTimeMs.1 / 1000.0)
  }

  /** The persona-specific part of a typing request. */
  datatype PersonaTyping = PersonaTyping(wpm: real, errorRate: real, thinkingPauseChance: real)

  /** The dictionary `_adapt_typing_for_persona` returns. */
  datatype TypingPlan = TypingPlan(profile: string, text: string, persona: Option<PersonaTyping>)

  function TypingProfileFor(style: Personas.TypingStyle): string {
    match style
    case TouchTyping => "fast"
    case HuntAndPeck => "careful"
    case Hybrid => "average"
  }

  /**
   * `_adapt_typing_for_persona` for the drawn words-per-minute variance: without a
   * persona only the base profile and text; otherwise the profile chosen by
   * typing style, the adjusted speed, and the persona's error and pause rates.
   */
  function AdaptTyping(persona: Option<Personas.UserPersona>, text: string, baseProfile: string, variance: real): (r: TypingPlan)
    reads if persona.Some? then {persona.value} else {}
    requires persona.Some? ==> -Personas.Abs(persona.value.keyboard.wpmVariance) <= variance <= Personas.Abs(persona.value.keyboard.wpmVariance)
    ensures r.text == text
    ensures persona.None? <==> r.persona.None?
    ensures persona.None? ==> r.profile == baseProfile
    ensures persona.Some? ==> var k := persona.value.keyboard;
      && (k.typingStyle == Personas.TouchTyping <==> r.profile == "fast")
      && (k.typingStyle == Personas.HuntAndPeck <==> r.profile == "careful")
      && (k.typingStyle == Personas.Hybrid <==> r.profile == "average")
      && r.persona.value.errorRate == k.errorRate && r.persona.value.thinkingPauseChance == k.thinkingPauseChance
      && r.persona.value.wpm == persona.value.AdjustedTypingSpeed(variance)
  {
    if persona.None? then TypingPlan(baseProfile, text, None)
    else
      var k := persona.value.keyboard;
      TypingPlan(TypingProfileFor(k.typingStyle), text,
                 Some(PersonaTyping(persona.value.AdjustedTypingSpeed(variance), k.errorRate, k.thinkingPauseChance)))
  }

  // ---------------------------------------------------------------- context-aware clicking

  /** One OCR token, `conf` on pytesseract's 0..100 scale. */
  datatype OcrToken = OcrToken(text: string, conf: real, left: int, top: int, width: int, height: int)

  /** A token position: the centre of its box and its OCR confidence. */
  datatype Position = Position(x: int, y: int, text: string, confidence: real)

  /** A token is kept for `needle` when non-blank, confident enough, and containing it after stripping and lower-casing. */
  predicate Keeps(t: OcrToken, needle: string, confidence: real) {
    !Text.IsBlank(t.text) && t.conf / 100.0 >= confidence &&
    Text.Contains(Text.Lower(Text.Strip(t.text)), Text.Lower(needle))
  }

  function PositionOf(t: OcrToken): Position {
    Position(t.left + t.width / 2, t.top + t.height / 2, t.text, t.conf / 100.0)
  }

  /** The positions of the tokens `keep` accepts, in token order. */
  function PositionsWhere(tokens: seq<OcrToken>, keep: OcrToken -> bool): (ps: seq<Position>)
    ensures |ps| <= |tokens|
  {
    if tokens == [] then []
    else
      var pre := PositionsWhere(tokens[..|tokens| - 1], keep);
      var t := tokens[|tokens| - 1];
      if keep(t) then pre + [PositionOf(t)] else pre
  }

  /** The positions list the token loop builds for `needle`, in token order. */
  function Positions(tokens: seq<OcrToken>, needle: string, confidence: real): (ps: seq<Position>)
    ensures |ps| <= |tokens|
  {
    PositionsWhere(tokens, t => Keeps(t, needle, confidence))
  }

  lemma {:induction false} WhereKept(tokens: seq<OcrToken>, keep: OcrToken -> bool, i: nat)
    requires i < |PositionsWhere(tokens, keep)|
    ensures exists k :: 0 <= k < |tokens| && keep(tokens[k]) && PositionsWhere(tokens, keep)[i] == PositionOf(tokens[k])
    decreases |tokens|
  {
    var n := |tokens| - 1;
    var front := tokens[..n];
    var pre := PositionsWhere(front, keep);
    if i < |pre| {
      WhereKept(front, keep, i);
      var k :| 0 <= k < |front| && keep(front[k]) && pre[i] == PositionOf(front[k]);
      assert tokens[k] == front[k];
    } else {
      assert keep(tokens[n]) && PositionsWhere(tokens, keep)[i] == PositionOf(tokens[n]);
    }
  }

  lemma {:induction false} KeptWhere(tokens: seq<OcrToken>, keep: OcrToken -> bool, k: nat)
    requires k < |tokens| && keep(tokens[k])
    ensures PositionOf(tokens[k]) in PositionsWhere(tokens, keep)
    decreases |tokens|
  {
    var n := |tokens| - 1;
    var front := tokens[..n];
    if k < n {
      assert front[k] == tokens[k];
      KeptWhere(front, keep, k);
    }
  }

  /** One more token extends the positions by its own when it is kept. */
  lemma PositionsStep(tokens: seq<OcrToken>, i: nat, needle: string, confidence: real)
    requires i < |tokens|
    ensures Positions(tokens[..i + 1], needle, confidence) ==
      if Keeps(tokens[i], needle, confidence) then Positions(tokens[..i], needle, confidence) + [PositionOf(tokens[i])]
      else Positions(tokens[..i], needle, confidence)
  {
    assert tokens[..i + 1][..i] == tokens[..i];
  }

  /** Every listed position is that of a kept token. */
  lemma PositionsKept(tokens: seq<OcrToken>, needle: string, confidence: real, i: nat)
    requires i < |Positions(tokens, needle, confidence)|
    ensures exists k :: (0 <= k < |tokens| && Keeps(tokens[k], needle, confidence) &&
                         Positions(tokens, needle, confidence)[i] == PositionOf(tokens[k]))
  {
    WhereKept(tokens, t => Keeps(t, needle, confidence), i);
  }

  /** Every kept token's position is listed. */
  lemma KeptListed(tokens: seq<OcrToken>, needle: string, confidence: real, k: nat)
    requires k < |tokens| && Keeps(tokens[k], needle, confidence)
    ensures PositionOf(tokens[k]) in Positions(tokens, needle, confidence)
  {
    KeptWhere(tokens, t => Keeps(t, needle, confidence), k);
  }

  /** The token loop of `click_near_text`: target and nearby positions collected in one pass. */
  method CollectPositions(tokens: seq<OcrToken>, target: string, nearby: string, confidence: real)
    returns (targets: seq<Position>, nearbys: seq<Position>)
    ensures targets == Positions(tokens, target, confidence)
    ensures nearbys == Positions(tokens, nearby, confidence)
  {
    targets := [];
    nearbys := [];
    var i := 0;
    while i < |tokens|
      invariant 0 <= i <= |tokens|
      invariant targets == Positions(tokens[..i], target, confidence)
      invariant nearbys == Positions(tokens[..i], nearby, confidence)
    {
      PositionsStep(tokens, i, target, confidence);
      PositionsStep(tokens, i, nearby, confidence);
      var t := tokens[i];
      if t.text != "" && !Text.IsBlank(t.text) && t.conf / 100.0 >= confidence {
        var clean := Text.Lower(Text.Strip(t.text));
        if Text.Contains(clean, Text.Lower(target)) {
          targets := targets + [PositionOf(t)];
        }
        if Text.Contains(clean, Text.Lower(nearby)) {
          nearbys := nearbys + [PositionOf(t)];
        }
      }
      i := i + 1;
    }
    assert tokens[..i] == tokens;
  }

  /** A scored target: the target's position and the pair's combined score. */
  datatype ScoredTarget = ScoredTarget(x: int, y: int, score: real)

  function Score(s: ScoredTarget): real { s.score }

  /** The `distance` between two points; the square root is computed by the platform. */
  type Distance = (int, int, int, int) -> real

  function PairDistance(t: Position, n: Position, distance: Distance): real {
    distance(t.x, t.y, n.x, n.y)
  }

  /**
   * One (target, nearby) pair: within `maxDistance` it scores the mean
   * confidence times 1 - d / maxDistance. (At `maxDistance` 0 such a pair
   * divides by zero; `ScoreNear` reports that.)
   */
  function PairCandidate(t: Position, n: Position, maxDistance: real, distance: Distance): Option<ScoredTarget> {
    var d := PairDistance(t, n, distance);
    if d <= maxDistance && maxDistance != 0.0 then Some(ScoredTarget(t.x, t.y, PairScore(t, n, d, maxDistance)))
    else None
  }

  /** The mean confidence of the pair, scaled down linearly with the distance. */
  function PairScore(t: Position, n: Position, d: real, maxDistance: real): real
    requires maxDistance != 0.0
  {
    (t.confidence + n.confidence) / 2.0 * (1.0 - d / maxDistance)
  }

  /** The pairs of one target with the nearby positions, in order. */
  function RowCandidates(t: Position, nearbys: seq<Position>, maxDistance: real, distance: Distance): (r: seq<Option<ScoredTarget>>)
    ensures |r| == |nearbys|
    ensures forall j :: 0 <= j < |r| ==> r[j] == PairCandidate(t, nearbys[j], maxDistance, distance)
  {
    if nearbys == [] then []
    else RowCandidates(t, nearbys[..|nearbys| - 1], maxDistance, distance) + [PairCandidate(t, nearbys[|nearbys| - 1], maxDistance, distance)]
  }

  /** All pairs in the nested loops' order: target by target, each with every nearby position. */
  function PairCandidates(targets: seq<Position>, nearbys: seq<Position>, maxDistance: real, distance: Distance): (r: seq<Option<ScoredTarget>>)
    ensures |r| == |targets| * |nearbys|
  {
    if targets == [] then []
    else
      var pre := PairCandidates(targets[..|targets| - 1], nearbys, maxDistance, distance);
      assert |pre| + |nearbys| == (|targets| - 1) * |nearbys| + |nearbys| == |targets| * |nearbys|;
      pre + RowCandidates(targets[|targets| - 1], nearbys, maxDistance, distance)
  }

  /** A pair of `t` within a zero maximum distance: its score divides by zero. */
  predicate RowDivides(t: Position, nearbys: seq<Position>, maxDistance: real, distance: Distance) {
    maxDistance == 0.0 && exists j :: 0 <= j < |nearbys| && PairDistance(t, nearbys[j], distance) <= 0.0
  }

  /** Some pair divides by zero. */
  predicate DividesByZero(targets: seq<Position>, nearbys: seq<Position>, maxDistance: real, distance: Distance) {
    exists i :: 0 <= i < |targets| && RowDivides(targets[i], nearbys, maxDistance, distance)
  }

  datatype ScoringError = ZeroDivisionError

  /** The outcome of the scoring loops: the best pair's target (None when no pair scores above 0), or the division error. */
  function ScoreNear(targets: seq<Position>, nearbys: seq<Position>, maxDistance: real, distance: Distance): Result<Option<ScoredTarget>, ScoringError> {
    if DividesByZero(targets, nearbys, maxDistance, distance) then Err(ZeroDivisionError)
    else Ok(Selection.Best(PairCandidates(targets, nearbys, maxDistance, distance), Score, 0.0))
  }

  lemma PairCandidatesStep(targets: seq<Position>, nearbys: seq<Position>, maxDistance: real, distance: Distance, i: nat, j: nat)
    requires i < |targets| && j < |nearbys|
    ensures var pre := PairCandidates(targets[..i], nearbys, maxDistance, distance);
      var row := RowCandidates(targets[i], nearbys[..j + 1], maxDistance, distance);
      && (pre + row)[..|pre| + j] == pre + RowCandidates(targets[i], nearbys[..j], maxDistance, distance)
      && (pre + row)[|pre| + j] == PairCandidate(targets[i], nearbys[j], maxDistance, distance)
  {
    assert nearbys[..j + 1][..j] == nearbys[..j];
  }

  /** The inner scoring loop: one target against every nearby position, continuing the running best. */
  method ScoreRow(ghost pre: seq<Option<ScoredTarget>>, t: Position, nearbys: seq<Position>, maxDistance: real,
                  distance: Distance, best0: Option<ScoredTarget>, bestScore0: real)
    returns (best: Option<ScoredTarget>, bestScore: real, divided: bool)
    requires best0 == Selection.Best(pre, Score, 0.0) && bestScore0 == Selection.Level(best0, Score) && bestScore0 >= 0.0
    ensures divided <==> RowDivides(t, nearbys, maxDistance, distance)
    ensures !divided ==> best == Selection.Best(pre + RowCandidates(t, nearbys, maxDistance, distance), Score, 0.0)
    ensures !divided ==> bestScore == Selection.Level(best, Score) && bestScore >= 0.0
  {
    best, bestScore := best0, bestScore0;
    var j := 0;
    divided := false;
    assert nearbys[..0] == [];
    assert pre + RowCandidates(t, nearbys[..0], maxDistance, distance) == pre;
    while j < |nearbys|
      invariant 0 <= j <= |nearbys|
      invariant best == Selection.Best(pre + RowCandidates(t, nearbys[..j], maxDistance, distance), Score, 0.0)
      invariant bestScore == Selection.Level(best, Score) && bestScore >= 0.0
      invariant maxDistance == 0.0 ==> forall j' :: 0 <= j' < j ==> PairDistance(t, nearbys[j'], distance) > 0.0
    {
      var n := nearbys[j];
      var d := distance(t.x, t.y, n.x, n.y);
      RowStep(pre, t, nearbys, maxDistance, distance, j);
      if d <= maxDistance {
        if maxDistance == 0.0 {
          return best, bestScore, true;
        }
        var combined := PairScore(t, n, d, maxDistance);
        if combined > bestScore {
          bestScore := combined;
          best := Some(ScoredTarget(t.x, t.y, combined));
        }
      }
      j := j + 1;
    }
    assert nearbys[..j] == nearbys;
    divided := false;
  }

  /** The scan's step: a candidate replaces the running best when its score is strictly greater and at least 0. */
  function Advance(best: Option<ScoredTarget>, c: Option<ScoredTarget>): Option<ScoredTarget> {
    if c.Some? && Score(c.value) > Selection.Level(best, Score) && Score(c.value) >= 0.0 then c else best
  }

  lemma RowStep(pre: seq<Option<ScoredTarget>>, t: Position, nearbys: seq<Position>, maxDistance: real, distance: Distance, j: nat)
    requires j < |nearbys|
    ensures Selection.Best(pre + RowCandidates(t, nearbys[..j + 1], maxDistance, distance), Score, 0.0) ==
      Advance(Selection.Best(pre + RowCandidates(t, nearbys[..j], maxDistance, distance), Score, 0.0),
              PairCandidate(t, nearbys[j], maxDistance, distance))
  {
    var cands := pre + RowCandidates(t, nearbys[..j + 1], maxDistance, distance);
    assert nearbys[..j + 1][..j] == nearbys[..j];
    assert cands[..|pre| + j] == pre + RowCandidates(t, nearbys[..j], maxDistance, distance);
    Selection.BestStep(cands, Score, 0.0, |pre| + j);
    assert cands[..|pre| + j + 1] == cands;
  }

  /** The nested scoring loops of `click_near_text`. */
  method ScoreNearLoop(targets: seq<Position>, nearbys: seq<Position>, maxDistance: real, distance: Distance)
    returns (r: Result<Option<ScoredTarget>, ScoringError>)
    ensures r == ScoreNear(targets, nearbys, maxDistance, distance)
  {
    var best: Option<ScoredTarget> := None;
    var bestScore := 0.0;
    var i := 0;
    while i < |targets|
      invariant 0 <= i <= |targets|
      invariant best == Selection.Best(PairCandidates(targets[..i], nearbys, maxDistance, distance), Score, 0.0)
      invariant bestScore == Selection.Level(best, Score) && bestScore >= 0.0
      invariant !DividesByZero(targets[..i], nearbys, maxDistance, distance)
    {
      var divided;
      best, bestScore, divided := ScoreRow(PairCandidates(targets[..i], nearbys, maxDistance, distance), targets[i],
                                           nearbys, maxDistance, distance, best, bestScore);
      TargetsStep(targets, nearbys, maxDistance, distance, i);
      if divided {
        return Err(ZeroDivisionError);
      }
      i := i + 1;
    }
    assert targets[..i] == targets;
    r := Ok(best);
  }

  lemma TargetsStep(targets: seq<Position>, nearbys: seq<Position>, maxDistance: real, distance: Distance, i: nat)
    requires i < |targets|
    ensures PairCandidates(targets[..i + 1], nearbys, maxDistance, distance) ==
      PairCandidates(targets[..i], nearbys, maxDistance, distance) + RowCandidates(targets[i], nearbys, maxDistance, distance)
    ensures RowDivides(targets[i], nearbys, maxDistance, distance) ==> DividesByZero(targets, nearbys, maxDistance, distance)
    ensures DividesByZero(targets[..i + 1], nearbys, maxDistance, distance) <==>
      DividesByZero(targets[..i], nearbys, maxDistance, distance) || RowDivides(targets[i], nearbys, maxDistance, distance)
  {
    assert targets[..i + 1][..i] == targets[..i];
    assert targets[..i + 1][i] == targets[i];
    if DividesByZero(targets[..i + 1], nearbys, maxDistance, distance) {
      var k :| 0 <= k < i + 1 && RowDivides(targets[..i + 1][k], nearbys, maxDistance, distance);
      if k < i {
        assert targets[..i][k] == targets[..i + 1][k];
      }
    }
  }

  /**
   * What the scoring picks: nothing exactly when no pair within the distance
   * scores above 0; otherwise the first pair of maximal score, whose target
   * lies within `maxDistance` of its nearby text.
   */
  lemma ScoreNearMeaning(targets: seq<Position>, nearbys: seq<Position>, maxDistance: real, distance: Distance)
    requires ScoreNear(targets, nearbys, maxDistance, distance).Ok?
    ensures var cands := PairCandidates(targets, nearbys, maxDistance, distance);
      var r := ScoreNear(targets, nearbys, maxDistance, distance).value;
      && (r.None? <==> forall k :: 0 <= k < |cands| ==> !Selection.Qualifies(cands[k], Score, 0.0))
      && (r.Some? ==> r.value.score > 0.0 && exists k :: Selection.IsFirstBest(cands, Score, 0.0, k) && cands[k] == r)
  {
    var cands := PairCandidates(targets, nearbys, maxDistance, distance);
    Selection.BestIndexIsFirstMaximum(cands, Score, 0.0);
    var b := Selection.BestIndex(cands, Score, 0.0);
    var r := ScoreNear(targets, nearbys, maxDistance, distance).value;
    assert r == Selection.Best(cands, Score, 0.0);
    if b.Some? {
      assert Selection.IsFirstBest(cands, Score, 0.0, b.value) && cands[b.value] == r;
      assert Selection.Qualifies(cands[b.value], Score, 0.0);
    }
  }

  /** With confidences in [0, 1] and a pair within a positive distance bound, the score is in [0, 1]. */
  /** A distance within the bound, divided by the bound, is a fraction in [0, 1]. */
  lemma UnitQuotient(d: real, bound: real)
    requires 0.0 <= d <= bound && bound > 0.0
    ensures 0.0 <= d / bound <= 1.0
  {
    var q := d / bound;
    assert q * bound == d;
    assert (1.0 - q) * bound == bound - d >= 0.0;
  }

  lemma PairScoreBounded(t: Position, n: Position, maxDistance: real, distance: Distance)
    requires 0.0 <= t.confidence <= 1.0 && 0.0 <= n.confidence <= 1.0
    requires maxDistance > 0.0 && PairDistance(t, n, distance) >= 0.0
    ensures var c := PairCandidate(t, n, maxDistance, distance);
      c.Some? ==> 0.0 <= c.value.score <= 1.0
  {
    var d := PairDistance(t, n, distance);
    if d <= maxDistance {
      var m := (t.confidence + n.confidence) / 2.0;
      var p := 1.0 - d / maxDistance;
      assert PairScore(t, n, d, maxDistance) == m * p;
      UnitQuotient(d, maxDistance);
      Personas.MulLe(0.0, m, 0.0, p);
      Personas.MulLe(m, 1.0, p, 1.0);
    }
  }

  /** The screenshot `click_near_text` works on: its pixel values (flattened), or None. */
  type Screenshot = Option<seq<int>>

  /** What pytesseract did. */
  datatype OcrOutcome = OcrMissing | OcrRaised | Tokens(tokens: seq<OcrToken>)

  /** Moving to the target and clicking: the click's result, or an exception from either command. */
  datatype ClickOutcome = Clicked(result: CommandResult) | ClickRaised

  /** The `VisionError` codes `click_near_text` raises, and the `ValueError` its screenshot test raises. */
  datatype ClickError = ScreenshotFailed | AmbiguousTruthValue | OcrUnavailable | ContextError

  datatype ClickSuccess = ClickSuccess(result: CommandResult, x: int, y: int, contextScore: real)

  /**
   * `not screenshot` on a NumPy image: None and an empty image are falsy, a
   * one-pixel image tests its pixel, and a larger image raises `ValueError`.
   */
  function NotScreenshotAsWritten(s: Screenshot): Result<bool, ClickError> {
    if s.None? then Ok(true)
    else if |s.value| == 0 then Ok(true)
    else if |s.value| == 1 then Ok(s.value[0] == 0)
    else Err(AmbiguousTruthValue)
  }

  /**
   * `click_near_text` as written: after the click it writes to
   * `click_result.details`, a field `CommandResult` does not have; the
   * `AttributeError` is caught with everything else and re-raised as
   * CONTEXT_ERROR.
   */
  function ClickNearTextAsWritten(screenshot: Screenshot, ocr: OcrOutcome, target: string, nearby: string,
                                  confidence: real, maxDistance: real, distance: Distance, click: ClickOutcome): Result<ClickSuccess, ClickError>
  {
    var missing := NotScreenshotAsWritten(screenshot);
    if missing.Err? then Err(missing.error)
    else if missing.value then Err(ScreenshotFailed)
    else match ocr
      case OcrMissing => Err(OcrUnavailable)
      case OcrRaised => Err(ContextError)
      case Tokens(tokens) =>
        var scored := ScoreNear(Positions(tokens, target, confidence), Positions(tokens, nearby, confidence), maxDistance, distance);
        if scored.Err? || scored.value.None? then Err(ContextError)
        else if click.ClickRaised? then Err(ContextError)
        else Err(ContextError)
  }

  /** As written, a captured screenshot of more than one pixel never gets past the screenshot test. */
  lemma AsWrittenRejectsImages(screenshot: Screenshot, ocr: OcrOutcome, target: string, nearby: string,
                               confidence: real, maxDistance: real, distance: Distance, click: ClickOutcome)
    requires screenshot.Some? && |screenshot.value| >= 2
    ensures ClickNearTextAsWritten(screenshot, ocr, target, nearby, confidence, maxDistance, distance, click) == Err(AmbiguousTruthValue)
  {
  }

  /** As written, `click_near_text` never returns: even a successful click ends in CONTEXT_ERROR. */
  lemma AsWrittenNeverSucceeds(screenshot: Screenshot, ocr: OcrOutcome, target: string, nearby: string,
                               confidence: real, maxDistance: real, distance: Distance, click: ClickOutcome)
    ensures ClickNearTextAsWritten(screenshot, ocr, target, nearby, confidence, maxDistance, distance, click).Err?
    ensures (click.Clicked? && ocr.Tokens? && screenshot == Some([1]) &&
      ScoreNear(Positions(ocr.tokens, target, confidence), Positions(ocr.tokens, nearby, confidence), maxDistance, distance).Ok? &&
      ScoreNear(Positions(ocr.tokens, target, confidence), Positions(ocr.tokens, nearby, confidence), maxDistance, distance).value.Some?) ==>
      ClickNearTextAsWritten(screenshot, ocr, target, nearby, confidence, maxDistance, distance, click) == Err(ContextError)
  {
  }

  /**
   * `click_near_text` as intended: the screenshot is tested against None and
   * the click's result is returned with the targeting details. A missing
   * target still surfaces as CONTEXT_ERROR, because the enclosing handler
   * re-raises every error but a missing pytesseract under that code.
   */
  function ClickNearText(screenshot: Screenshot, ocr: OcrOutcome, target: string, nearby: string,
                         confidence: real, maxDistance: real, distance: Distance, click: ClickOutcome): Result<ClickSuccess, ClickError>
  {
    if screenshot.None? then Err(ScreenshotFailed)
    else match ocr
      case OcrMissing => Err(OcrUnavailable)
      case OcrRaised => Err(ContextError)
      case Tokens(tokens) =>
        var scored := ScoreNear(Positions(tokens, target, confidence), Positions(tokens, nearby, confidence), maxDistance, distance);
        if scored.Err? || scored.value.None? then Err(ContextError)
        else match click
          case ClickRaised => Err(ContextError)
          case Clicked(result) => Ok(ClickSuccess(result, scored.value.value.x, scored.value.value.y, scored.value.value.score))
  }

  /**
   * The intended behaviour: the call succeeds exactly when a screenshot and OCR
   * tokens exist, some pair scores, and the click goes through; it then clicks
   * the target of the first best-scoring pair and reports that score. A missing
   * pytesseract is OCR_UNAVAILABLE; every other failure is CONTEXT_ERROR.
   */
  lemma ClickNearTextMeaning(screenshot: Screenshot, ocr: OcrOutcome, target: string, nearby: string,
                             confidence: real, maxDistance: real, distance: Distance, click: ClickOutcome)
    ensures var r := ClickNearText(screenshot, ocr, target, nearby, confidence, maxDistance, distance, click);
      && (r.Ok? <==> (screenshot.Some? && ocr.Tokens? && click.Clicked? &&
            var s := ScoreNear(Positions(ocr.tokens, target, confidence), Positions(ocr.tokens, nearby, confidence), maxDistance, distance);
            s.Ok? && s.value.Some?))
      && (r.Ok? ==> var ts := Positions(ocr.tokens, target, confidence); var ns := Positions(ocr.tokens, nearby, confidence);
            var cands := PairCandidates(ts, ns, maxDistance, distance);
            && r.value.contextScore > 0.0 && r.value.result == click.result
            && exists k :: Selection.IsFirstBest(cands, Score, 0.0, k) && cands[k] == Some(ScoredTarget(r.value.x, r.value.y, r.value.contextScore)))
      && (r == Err(OcrUnavailable) <==> screenshot.Some? && ocr == OcrMissing)
      && (screenshot.Some? && ocr.Tokens? && r.Err? ==> r.error == ContextError)
  {
    if screenshot.Some? && ocr.Tokens? {
      var ts := Positions(ocr.tokens, target, confidence);
      var ns := Positions(ocr.tokens, nearby, confidence);
      if ScoreNear(ts, ns, maxDistance, distance).Ok? {
        ScoreNearMeaning(ts, ns, maxDistance, distance);
      }
    }
  }

  /**
   * `_find_input_field_near`: the first search area, to the right of the label,
   * which lies beyond the label's right edge at the label's centre height.
   */
  function FindInputFieldNear(found: MatchResults.MatchResult): (p: (int, int))
    ensures found.width >= 0 && found.centerX >= found.x ==> p.0 > MatchResults.BottomRight(found).0
    ensures p.1 == found.centerY
  {
    (found.centerX + found.width + 10, found.centerY)
  }
}
