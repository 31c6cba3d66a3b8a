/**
 * Session state and registry of `src/python_sdk/user_personas.py`. The persona
 * profiles keep the fields the SDK reads; `random.uniform` draws are inputs
 * bounded by the interval they are drawn from.
 */
module Personas {
  import opened Wrappers

  datatype ExperienceLevel = Beginner | Intermediate | Expert

  datatype TypingStyle = HuntAndPeck | TouchTyping | Hybrid

  /** `MouseBehaviorProfile` (the fields the SDK reads). */
  datatype MouseBehavior = MouseBehavior(
    baseSpeed: real, speedVariance: real, precisionLevel: real, overshootTendency: real, dwellTimeMs: (real, real))

  /** `KeyboardBehaviorProfile` (the fields the SDK reads). */
  datatype KeyboardBehavior = KeyboardBehavior(
    baseWpm: real, wpmVariance: real, typingStyle: TypingStyle, errorRate: real, thinkingPauseChance: real)

  /** The fixed part of a persona, as the factory functions build it. */
  datatype Profile = Profile(
    name: string, description: string, experienceLevel: ExperienceLevel,
    mouse: MouseBehavior, keyboard: KeyboardBehavior)

  function Abs(x: real): real { if x < 0.0 then -x else x }

  function Min(a: real, b: real): real { if a <= b then a else b }

  function Max(a: real, b: real): real { if a >= b then a else b }

  /** The mouse fatigue factor `max(0.7, 1 - 0.1 * fatigue)`. */
  function MouseFatigueFactor(fatigue: real): (r: real)
    ensures r >= 0.7
    ensures 0.0 <= fatigue <= 0.5 ==> 0.95 <= r <= 1.0
    ensures fatigue >= 3.0 ==> r == 0.7
  {
    Max(0.7, 1.0 - fatigue * 0.1)
  }

  /** The typing fatigue factor `max(0.8, 1 - 0.05 * fatigue)`. */
  function TypingFatigueFactor(fatigue: real): (r: real)
    ensures r >= 0.8
    ensures 0.0 <= fatigue <= 0.5 ==> 0.975 <= r <= 1.0
    ensures fatigue >= 4.0 ==> r == 0.8
  {
    Max(0.8, 1.0 - fatigue * 0.05)
  }

  /** `base * (1 + variance) * level * factor`, shared by both adjusted speeds. */
  function AdjustedSpeed(base: real, variance: real, level: real, factor: real): real {
    base * (1.0 + variance) * level * factor
  }

  lemma MulLe(a: real, b: real, c: real, d: real)
    requires 0.0 <= a <= b && 0.0 <= c <= d
    ensures a * c <= b * d
  {
    assert a * c <= b * c;
    assert b * c <= b * d;
  }

  /**
   * With a variance drawn from [-spread, spread], a level in [0.5, 1.5] and a
   * factor in [low, 1], the adjusted speed lies between
   * base * (1 - spread) * 0.5 * low and base * (1 + spread) * 1.5.
   */
  lemma AdjustedSpeedBounds(base: real, spread: real, variance: real, level: real, low: real, factor: real)
    requires base >= 0.0 && 0.0 <= spread <= 1.0 && -spread <= variance <= spread
    requires 0.5 <= level <= 1.5 && 0.0 <= low <= factor <= 1.0
    ensures base * (1.0 - spread) * 0.5 * low <= AdjustedSpeed(base, variance, level, factor) <= base * (1.0 + spread) * 1.5
  {
    MulLe(0.0, base, 0.0, 1.0 - spread);
    MulLe(base, base, 1.0 - spread, 1.0 + variance);
    MulLe(base, base, 1.0 + variance, 1.0 + spread);
    var lo := base * (1.0 - spread);
    var mid := base * (1.0 + variance);
    var hi := base * (1.0 + spread);
    assert 0.0 <= lo <= mid <= hi;
    MulLe(lo, mid, 0.5, level);
    MulLe(mid, hi, level, 1.5);
    MulLe(lo * 0.5, mid * level, low, factor);
    MulLe(mid * level, hi * 1.5, factor, 1.0);
  }

  /** The fatigue rate per minute of session: experts tire slowest, beginners fastest. */
  function FatigueRate(level: ExperienceLevel): real {
    match level
    case Expert => 0.01
    case Intermediate => 0.015
    case Beginner => 0.02
  }

  /** `accumulate_fatigue`'s value: the session length times the rate, capped at 0.5. */
  function Fatigue(level: ExperienceLevel, minutes: real): (f: real)
    ensures f <= 0.5
    ensures minutes >= 0.0 ==> f >= 0.0
    ensures minutes * FatigueRate(level) >= 0.5 ==> f == 0.5
  {
    Min(0.5, minutes * FatigueRate(level))
  }

  /** Fatigue never decreases as the session grows longer. */
  lemma FatigueMonotone(level: ExperienceLevel, m1: real, m2: real)
    requires m1 <= m2
    ensures Fatigue(level, m1) <= Fatigue(level, m2)
  {
    assert m1 * FatigueRate(level) <= m2 * FatigueRate(level);
  }

  /** Over the same session, an expert is no more tired than an intermediate user, who is no more tired than a beginner. */
  lemma FatigueByExperience(minutes: real)
    requires minutes >= 0.0
    ensures Fatigue(Expert, minutes) <= Fatigue(Intermediate, minutes) <= Fatigue(Beginner, minutes)
  {
    assert minutes * 0.01 <= minutes * 0.015 <= minutes * 0.02;
  }

  /** `max(0.5, min(1.5, x))`. */
  function Clamp(x: real): (r: real)
    ensures 0.5 <= r <= 1.5
    ensures 0.5 <= x <= 1.5 ==> r == x
    ensures x < 0.5 ==> r == 0.5
    ensures x > 1.5 ==> r == 1.5
  {
    Max(0.5, Min(1.5, x))
  }

  /** From a level in range, clamping a step moves the level by no more than the step. */
  lemma ClampStep(x: real, d: real)
    requires 0.5 <= x <= 1.5
    ensures Abs(Clamp(x + d) - x) <= Abs(d)
  {
  }

  /** `UserPersona`; its session state changes in place. */
  class UserPersona {
    const name: string
    const description: string
    const experienceLevel: ExperienceLevel
    const mouse: MouseBehavior
    const keyboard: KeyboardBehavior
    var currentEnergyLevel: real
    var currentFocusLevel: real
    var fatigueAccumulation: real

    /** Energy and focus in [0.5, 1.5], fatigue in [0, 0.5]. */
    predicate SessionInRange()
      reads this
    {
      0.5 <= currentEnergyLevel <= 1.5 && 0.5 <= currentFocusLevel <= 1.5 && 0.0 <= fatigueAccumulation <= 0.5
    }

    constructor(p: Profile)
      ensures name == p.name && description == p.description && experienceLevel == p.experienceLevel
      ensures mouse == p.mouse && keyboard == p.keyboard
      ensures currentEnergyLevel == 1.0 && currentFocusLevel == 1.0 && fatigueAccumulation == 0.0
      ensures SessionInRange()
    {
      name := p.name;
      description := p.description;
      experienceLevel := p.experienceLevel;
      mouse := p.mouse;
      keyboard := p.keyboard;
      currentEnergyLevel := 1.0;
      currentFocusLevel := 1.0;
      fatigueAccumulation := 0.0;
    }

    /**
     * `get_adjusted_mouse_speed` for the drawn variance: with the session in
     * range it lies between base * (1 - v) * 0.5 * 0.95 and base * (1 + v) * 1.5,
     * v being the persona's speed variance.
     */
    function AdjustedMouseSpeed(variance: real): (r: real)
      reads this
      requires -Abs(mouse.speedVariance) <= variance <= Abs(mouse.speedVariance)
      ensures SessionInRange() && mouse.baseSpeed >= 0.0 && 0.0 <= mouse.speedVariance <= 1.0 ==>
        mouse.baseSpeed * (1.0 - mouse.speedVariance) * 0.5 * 0.95 <= r <= mouse.baseSpeed * (1.0 + mouse.speedVariance) * 1.5
    {
      var factor := MouseFatigueFactor(fatigueAccumulation);
      if SessionInRange() && mouse.baseSpeed >= 0.0 && 0.0 <= mouse.speedVariance <= 1.0 then
        AdjustedSpeedBounds(mouse.baseSpeed, mouse.speedVariance, variance, currentEnergyLevel, 0.95, factor);
        AdjustedSpeed(mouse.baseSpeed, variance, currentEnergyLevel, factor)
      else AdjustedSpeed(mouse.baseSpeed, variance, currentEnergyLevel, factor)
    }

    /**
     * `get_adjusted_typing_speed` for the drawn variance: with the session in
     * range it lies between wpm * (1 - v) * 0.5 * 0.975 and wpm * (1 + v) * 1.5.
     */
    function AdjustedTypingSpeed(variance: real): (r: real)
      reads this
      requires -Abs(keyboard.wpmVariance) <= variance <= Abs(keyboard.wpmVariance)
      ensures SessionInRange() && keyboard.baseWpm >= 0.0 && 0.0 <= keyboard.wpmVariance <= 1.0 ==>
        keyboard.baseWpm * (1.0 - keyboard.wpmVariance) * 0.5 * 0.975 <= r <= keyboard.baseWpm * (1.0 + keyboard.wpmVariance) * 1.5
    {
      var factor := TypingFatigueFactor(fatigueAccumulation);
      if SessionInRange() && keyboard.baseWpm >= 0.0 && 0.0 <= keyboard.wpmVariance <= 1.0 then
        AdjustedSpeedBounds(keyboard.baseWpm, keyboard.wpmVariance, variance, currentFocusLevel, 0.975, factor);
        AdjustedSpeed(keyboard.baseWpm, variance, currentFocusLevel, factor)
      else AdjustedSpeed(keyboard.baseWpm, variance, currentFocusLevel, factor)
    }

    /** `accumulate_fatigue`: fatigue is set from the session length, not added to. */
    method AccumulateFatigue(sessionMinutes: real)
      modifies this
      ensures fatigueAccumulation == Fatigue(experienceLevel, sessionMinutes)
      ensures currentEnergyLevel == old(currentEnergyLevel) && currentFocusLevel == old(currentFocusLevel)
      ensures old(SessionInRange()) && sessionMinutes >= 0.0 ==> SessionInRange()
    {
      var rate: real;
      if experienceLevel == Expert {
        rate := 0.01;
      } else if experienceLevel == Intermediate {
        rate := 0.015;
      } else {
        rate := 0.02;
      }
      fatigueAccumulation := Min(0.5, sessionMinutes * rate);
    }

    /**
     * `update_session_state` for the drawn steps (energy by at most 0.05, focus
     * by at most 0.1): both levels end in [0.5, 1.5] whatever they were before.
     */
    method UpdateSessionState(energyStep: real, focusStep: real)
      requires Abs(energyStep) <= 0.05 && Abs(focusStep) <= 0.1
      modifies this
      ensures currentEnergyLevel == Clamp(old(currentEnergyLevel) + energyStep)
      ensures currentFocusLevel == Clamp(old(currentFocusLevel) + focusStep)
      ensures fatigueAccumulation == old(fatigueAccumulation)
      ensures 0.5 <= currentEnergyLevel <= 1.5 && 0.5 <= currentFocusLevel <= 1.5
    {
      currentEnergyLevel := currentEnergyLevel + energyStep;
      currentEnergyLevel := Max(0.5, Min(1.5, currentEnergyLevel));
      currentFocusLevel := currentFocusLevel + focusStep;
      currentFocusLevel := Max(0.5, Min(1.5, currentFocusLevel));
    }
  }

  // ---------------------------------------------------------------- registry

  function TechProfessional(): Profile {
    Profile("Alex Chen", "Senior Software Engineer at tech company", Expert,
      MouseBehavior(1200.0, 0.15, 0.9, 0.05, (20.0, 50.0)),
      KeyboardBehavior(85.0, 0.12, TouchTyping, 0.02, 0.05))
  }

  function CasualUser(): Profile {
    Profile("Sarah Johnson", "Marketing Manager with moderate computer experience", Intermediate,
      MouseBehavior(800.0, 0.25, 0.75, 0.15, (50.0, 150.0)),
      KeyboardBehavior(55.0, 0.2, Hybrid, 0.05, 0.15))
  }

  function SeniorUser(): Profile {
    Profile("Robert Williams", "Retired teacher learning to use computers more", Beginner,
      MouseBehavior(400.0, 0.3, 0.6, 0.3, (150.0, 400.0)),
      KeyboardBehavior(25.0, 0.4, HuntAndPeck, 0.12, 0.3))
  }

  /** The registry keys, in insertion order. */
  const Names: seq<string> := ["tech_professional", "casual_user", "senior_user"]

  datatype PersonaError = UnknownPersona(name: string, available: seq<string>)

  /** `PERSONAS`: one shared persona object per name, created once. */
  class PersonaRegistry {
    const techProfessional: UserPersona
    const casualUser: UserPersona
    const seniorUser: UserPersona

    constructor()
      ensures fresh(techProfessional) && fresh(casualUser) && fresh(seniorUser)
      ensures techProfessional != casualUser && casualUser != seniorUser && techProfessional != seniorUser
      ensures techProfessional.name == "Alex Chen" && casualUser.name == "Sarah Johnson" && seniorUser.name == "Robert Williams"
    {
      techProfessional := new UserPersona(TechProfessional());
      casualUser := new UserPersona(CasualUser());
      seniorUser := new UserPersona(SeniorUser());
    }

    /**
     * `get_persona`: the registered object itself (so changes to its session
     * state are seen by every later lookup), or the error naming the available keys.
     */
    function GetPersona(name: string): (r: Result<UserPersona, PersonaError>)
      ensures r.Ok? <==> name in Names
      ensures r.Err? ==> r.error == UnknownPersona(name, Names)
      ensures r.Ok? ==> r.value in {techProfessional, casualUser, seniorUser}
      ensures name == Names[0] ==> r == Ok(techProfessional)
      ensures name == Names[1] ==> r == Ok(casualUser)
      ensures name == Names[2] ==> r == Ok(seniorUser)
    {
      if name == "tech_professional" then Ok(techProfessional)
      else if name == "casual_user" then Ok(casualUser)
      else if name == "senior_user" then Ok(seniorUser)
      else Err(UnknownPersona(name, Names))
    }

    /** `list_personas`: the keys in registry order, each of which `get_persona` accepts. */
    function ListPersonas(): (names: seq<string>)
      ensures |names| == 3
      ensures forall i :: 0 <= i < |names| ==> GetPersona(names[i]).Ok?
      ensures forall n :: GetPersona(n).Ok? <==> n in names
    {
      Names
    }

    /** `get_persona_summary`: each registered name paired with its persona's description, in registry order. */
    function GetPersonaSummary(): (summary: seq<(string, string)>)
      reads techProfessional, casualUser, seniorUser
      ensures |summary| == |ListPersonas()|
      ensures forall i :: 0 <= i < |summary| ==>
        summary[i].0 == ListPersonas()[i] && summary[i].1 == GetPersona(summary[i].0).value.description
    {
      [(Names[0], techProfessional.description), (Names[1], casualUser.description), (Names[2], seniorUser.description)]
    }
  }

  /** Every registered persona satisfies the conditions of the speed bounds. */
  lemma RegistryProfilesInRange()
    ensures forall p :: p in [TechProfessional(), CasualUser(), SeniorUser()] ==>
      p.mouse.baseSpeed >= 0.0 && 0.0 <= p.mouse.speedVariance <= 1.0 &&
      p.keyboard.baseWpm >= 0.0 && 0.0 <= p.keyboard.wpmVariance <= 1.0
  {
  }
}
