/**
 * The command-line front end (src/cli/main.py and src/cli/commands.py): loading the
 * configuration file over the built-in defaults, `config set` on a dotted key path,
 * the tally of the health check (`doctor`), the guards of `daemon` and `run`, and the
 * exit code of the entry point. The file system, the daemon process, the script being
 * run and the health checks themselves are inputs.
 */
module Cli {
  import opened Wrappers
  import opened JsonValues
  import Text

  /** The configuration: a JSON object, section name to section. */
  type Config = map<string, Json>

  // ---------------------------------------------------------------------------
  // Loading the configuration file
  // ---------------------------------------------------------------------------

  /** The configuration used when no file can be read. */
  const Defaults: Config := map[
    "daemon" := Obj(map[
      "socket_path" := Str("/tmp/browsergeist.sock"),
      "auto_start" := Bool(true),
      "timeout" := Num(30.0)]),
    "motion" := Obj(map[
      "default_profile" := Str("Natural"),
      "custom_profiles" := Obj(map[])]),
    "vision" := Obj(map[
      "template_cache_ttl" := Num(300.0),
      "confidence_threshold" := Num(0.8)]),
    "captcha" := Obj(map[
      "default_methods" := Arr([Str("openai"), Str("manual"), Str("twocaptcha")]),
      "openai_api_key" := Null,
      "twocaptcha_api_key" := Null]),
    "logging" := Obj(map[
      "level" := Str("INFO"),
      "format" := Str("structured"),
      "console_output" := Bool(true)])
  ]

  /** What reading the configuration file gives. */
  datatype ConfigFile =
    | Missing              // the file does not exist
    | Unreadable           // opening or reading it raised IOError
    | Undecodable          // its text is not JSON (JSONDecodeError)
    | Decoded(doc: Json)   // the decoded document

  /** `{**defaults, **doc}` raises TypeError when the document is not a JSON object. */
  datatype LoadError = NotAMapping

  /** The loaded configuration, and whether the defaults were written back to the file. */
  datatype Loaded = Loaded(config: Config, savesDefaults: bool)

  /**
   * The configuration the command line starts with: the file's sections over the
   * defaults, one level deep; the defaults (saved to the file) when there is no
   * usable file.
   */
  function LoadConfig(file: ConfigFile): (r: Result<Loaded, LoadError>)
    ensures r.Err? <==> file.Decoded? && !file.doc.Obj?
    ensures !file.Decoded? ==> r == Ok(Loaded(Defaults, true))
    ensures r.Ok? && file.Decoded? ==>
      var f := file.doc.fields;
      var c := r.value.config;
      && !r.value.savesDefaults
      && c.Keys == Defaults.Keys + f.Keys
      && (forall k :: k in f ==> c[k] == f[k])
      && (forall k :: k in Defaults && k !in f ==> c[k] == Defaults[k])
  {
    match file
    case Decoded(doc) =>
      if doc.Obj? then Ok(Loaded(Defaults + doc.fields, false)) else Err(NotAMapping)
    case _ => Ok(Loaded(Defaults, true))
  }

  /**
   * The merge is one level deep: a section in the file replaces the default section
   * whole, so a `daemon` section without `auto_start` leaves no `auto_start` at all.
   */
  lemma FileSectionReplacesDefault(f: Config, g: Config)
    requires "daemon" in f && f["daemon"] == Obj(g) && "auto_start" !in g
    ensures LoadConfig(Decoded(Obj(f))).Ok?
    ensures AutoStart(LoadConfig(Decoded(Obj(f))).value.config).Err?
  {
  }

  // ---------------------------------------------------------------------------
  // `config set KEY VALUE`
  // ---------------------------------------------------------------------------

  /** Assigning into a value that is not a dictionary raises TypeError. */
  datatype ConfigError = TypeError

  /** The value to store: the JSON it decodes to, or the raw text when it is not JSON. */
  function ParseValue(raw: string, decode: string -> Option<Json>): (v: Json)
    ensures decode(raw).Some? ==> v == decode(raw).value
    ensures decode(raw).None? ==> v == Str(raw)
  {
    match decode(raw)
    case Some(j) => j
    case None => Str(raw)
  }

  /** The value found by following `path` from `v`, if every step exists. */
  function Lookup(v: Json, path: seq<string>): Option<Json>
    decreases |path|
  {
    if path == [] then Some(v)
    else if v.Obj? && path[0] in v.fields then Lookup(v.fields[path[0]], path[1..])
    else None
  }

  /**
   * The configuration after assigning `value` at the key path `keys`, creating each
   * missing section on the way as an empty dictionary; TypeError when an entry on
   * the way exists and is not a dictionary.
   */
  function SetPath(m: Config, keys: seq<string>, value: Json): (r: Result<Config, ConfigError>)
    requires |keys| >= 1
    ensures r.Ok? ==> r.value.Keys == m.Keys + {keys[0]}
    ensures r.Ok? ==> forall k :: k in m && k != keys[0] ==> r.value[k] == m[k]
    ensures r.Ok? && |keys| >= 2 ==> r.value[keys[0]].Obj?
    decreases |keys|
  {
    if |keys| == 1 then Ok(m[keys[0] := value])
    else
      var section := if keys[0] in m then m[keys[0]] else Obj(map[]);
      if !section.Obj? then Err(TypeError)
      else
        match SetPath(section.fields, keys[1..], value)
        case Ok(inner) => Ok(m[keys[0] := Obj(inner)])
        case Err(e) => Err(e)
  }

  /** The section reached by walking `path`, creating missing sections; None at a non-dictionary. */
  function Descend(m: Config, path: seq<string>): Option<Config>
    decreases |path|
  {
    if path == [] then Some(m)
    else
      var section := if path[0] in m then m[path[0]] else Obj(map[]);
      if section.Obj? then Descend(section.fields, path[1..]) else None
  }

  /** One step of the walk: into the entry `k` of `section`, or a fresh section when it is missing. */
  function Enter(section: Config, k: string): Option<Config> {
    if k !in section then Some(map[])
    else if section[k].Obj? then Some(section[k].fields)
    else None
  }

  /** Some entry on the path exists and is not a dictionary. */
  predicate NonDictOnPath(m: Config, path: seq<string>) {
    exists i :: 1 <= i <= |path| && Lookup(Obj(m), path[..i]).Some? && !Lookup(Obj(m), path[..i]).value.Obj?
  }

  /** The walk extends one key at a time. */
  lemma {:induction false} DescendSnoc(m: Config, p: seq<string>, k: string)
    ensures Descend(m, p + [k]) == match Descend(m, p) case None => None case Some(s) => Enter(s, k)
    decreases |p|
  {
    if p == [] {
      assert p + [k] == [k];
      assert [k][1..] == [];
    } else {
      assert (p + [k])[0] == p[0];
      assert (p + [k])[1..] == p[1..] + [k];
      var section := if p[0] in m then m[p[0]] else Obj(map[]);
      if section.Obj? {
        DescendSnoc(section.fields, p[1..], k);
      }
    }
  }

  /** Once the walk is blocked, walking further stays blocked. */
  lemma {:induction false} DescendBlockedPrefix(m: Config, p: seq<string>, n: nat)
    requires n <= |p| && Descend(m, p[..n]).None?
    ensures Descend(m, p).None?
    decreases |p|
  {
    assert n > 0;
    assert p[..n][0] == p[0];
    assert p[..n][1..] == p[1..][..n - 1];
    var section := if p[0] in m then m[p[0]] else Obj(map[]);
    if section.Obj? {
      DescendBlockedPrefix(section.fields, p[1..], n - 1);
    }
  }

  /** A walk through freshly created sections never fails. */
  lemma {:induction false} DescendFresh(p: seq<string>)
    ensures Descend(map[], p) == Some(map[])
    decreases |p|
  {
    if p != [] {
      DescendFresh(p[1..]);
    }
  }

  /** `Lookup` one key below the top level. */
  lemma LookupTail(m: Config, path: seq<string>, i: nat)
    requires 1 <= i <= |path| && path[0] in m
    ensures Lookup(Obj(m), path[..i]) == Lookup(m[path[0]], path[1..][..i - 1])
  {
    assert path[..i][0] == path[0];
    assert path[..i][1..] == path[1..][..i - 1];
  }

  /** The walk is blocked exactly when an existing entry on the path is not a dictionary. */
  lemma {:induction false} DescendBlockedMeaning(m: Config, path: seq<string>)
    ensures Descend(m, path).None? <==> NonDictOnPath(m, path)
    decreases |path|
  {
    if path != [] {
      var k := path[0];
      if k !in m {
        DescendFresh(path[1..]);
        forall i | 1 <= i <= |path|
          ensures Lookup(Obj(m), path[..i]) == None
        {
          assert path[..i][0] == k;
        }
      } else if !m[k].Obj? {
        assert path[..1] == [k];
        assert [k][1..] == [];
        assert Lookup(Obj(m), path[..1]) == Some(m[k]);
      } else {
        var f := m[k].fields;
        DescendBlockedMeaning(f, path[1..]);
        if NonDictOnPath(m, path) {
          var i :| 1 <= i <= |path| && Lookup(Obj(m), path[..i]).Some? && !Lookup(Obj(m), path[..i]).value.Obj?;
          LookupTail(m, path, i);
          if i > 1 {
            assert 1 <= i - 1 <= |path[1..]|;
            assert NonDictOnPath(f, path[1..]);
          }
        }
        if NonDictOnPath(f, path[1..]) {
          var i :| 1 <= i <= |path[1..]| && Lookup(Obj(f), path[1..][..i]).Some? && !Lookup(Obj(f), path[1..][..i]).value.Obj?;
          LookupTail(m, path, i + 1);
          assert NonDictOnPath(m, path);
        }
      }
    }
  }

  /** Setting succeeds exactly when the walk to the leaf's parent is not blocked. */
  lemma {:induction false} SetPathSucceeds(m: Config, keys: seq<string>, value: Json)
    requires |keys| >= 1
    ensures SetPath(m, keys, value).Ok? <==> Descend(m, keys[..|keys| - 1]).Some?
    decreases |keys|
  {
    if |keys| > 1 {
      var parent := keys[..|keys| - 1];
      assert parent[0] == keys[0];
      assert parent[1..] == keys[1..][..|keys[1..]| - 1];
      var section := if keys[0] in m then m[keys[0]] else Obj(map[]);
      if section.Obj? {
        SetPathSucceeds(section.fields, keys[1..], value);
      }
    }
  }

  /** `config set` fails exactly when an existing entry above the leaf is not a dictionary. */
  lemma SetPathFailsMeaning(m: Config, keys: seq<string>, value: Json)
    requires |keys| >= 1
    ensures SetPath(m, keys, value).Err? <==> NonDictOnPath(m, keys[..|keys| - 1])
  {
    SetPathSucceeds(m, keys, value);
    DescendBlockedMeaning(m, keys[..|keys| - 1]);
  }

  /** After a successful set, following the key path yields the value. */
  lemma {:induction false} SetThenLookup(m: Config, keys: seq<string>, value: Json)
    requires |keys| >= 1 && SetPath(m, keys, value).Ok?
    ensures Lookup(Obj(SetPath(m, keys, value).value), keys) == Some(value)
    decreases |keys|
  {
    if |keys| == 1 {
      assert keys[1..] == [];
    } else {
      var section := if keys[0] in m then m[keys[0]] else Obj(map[]);
      SetThenLookup(section.fields, keys[1..], value);
    }
  }

  /** `p` leaves the key path `keys` at some position both have. */
  predicate Diverges(p: seq<string>, keys: seq<string>) {
    exists j :: 0 <= j < |p| && j < |keys| && p[..j] == keys[..j] && p[j] != keys[j]
  }

  /** A set changes nothing reachable by a path that leaves the key path: siblings stay as they were. */
  lemma {:induction false} SetLeavesOtherPaths(m: Config, keys: seq<string>, value: Json, p: seq<string>)
    requires |keys| >= 1 && SetPath(m, keys, value).Ok? && Diverges(p, keys)
    ensures Lookup(Obj(SetPath(m, keys, value).value), p) == Lookup(Obj(m), p)
    decreases |keys|
  {
    var m' := SetPath(m, keys, value).value;
    var j :| 0 <= j < |p| && j < |keys| && p[..j] == keys[..j] && p[j] != keys[j];
    if j > 0 {
      assert p[0] == p[..j][0] == keys[..j][0] == keys[0];
      var section := if keys[0] in m then m[keys[0]] else Obj(map[]);
      var inner := SetPath(section.fields, keys[1..], value).value;
      assert m'[keys[0]] == Obj(inner);
      assert p[1..][..j - 1] == p[..j][1..] == keys[..j][1..] == keys[1..][..j - 1];
      assert Diverges(p[1..], keys[1..]);
      SetLeavesOtherPaths(section.fields, keys[1..], value, p[1..]);
      assert p[1..] != [];
    }
  }

  // ---------------------------------------------------------------------------
  // `doctor`
  // ---------------------------------------------------------------------------

  /** The status a health check reports: "ok", "warning", or anything else (an error). */
  datatype Status = StatusOk | StatusWarning | StatusError

  /** What calling a check's fix does: returns truthy, returns falsy, or raises. */
  datatype FixOutcome = FixSucceeded | FixFailed | FixRaised

  /** One health check: it raised, or it reported a status and maybe offered a fix. */
  datatype CheckRun = CheckRaised | Reported(status: Status, fix: Option<FixOutcome>)

  /** The position of the first occurrence of `x` (`list.index(x)`). */
  function FirstPosition(s: seq<string>, x: string): (i: nat)
    requires x in s
    ensures i < |s| && s[i] == x && x !in s[..i]
  {
    if s[0] == x then 0 else 1 + FirstPosition(s[1..], x)
  }

  /** `list.remove(x)`: drop the first occurrence. */
  function RemoveFirst(s: seq<string>, x: string): (r: seq<string>)
    requires x in s
    ensures |r| == |s| - 1
    ensures r == s[..FirstPosition(s, x)] + s[FirstPosition(s, x) + 1..]
  {
    if s[0] == x then s[1..]
    else
      var rest := RemoveFirst(s[1..], x);
      var i := FirstPosition(s[1..], x);
      assert s[..i + 1] == [s[0]] + s[1..][..i];
      assert s[i + 2..] == s[1..][i + 1..];
      [s[0]] + rest
  }

  /** The issue list after one check, as the loop of `cmd_doctor` updates it. */
  function TallyStep(issues: seq<string>, name: string, run: CheckRun, doFix: bool): seq<string> {
    match run
    case CheckRaised => issues + [name]
    case Reported(status, fix) =>
      if status == StatusOk then issues
      else if status == StatusWarning then
        if doFix && fix.Some? && fix.value != FixSucceeded then issues + [name] else issues
      else if doFix && fix.Some? then
        match fix.value
        case FixSucceeded => RemoveFirst(issues + [name], name)
        case FixFailed => issues + [name]
        case FixRaised => issues + [name, name]
      else issues + [name]
  }

  /** The issue list after the given checks. */
  function Tally(checks: seq<(string, CheckRun)>, doFix: bool): seq<string>
    decreases |checks|
  {
    if checks == [] then []
    else
      var last := checks[|checks| - 1];
      TallyStep(Tally(checks[..|checks| - 1], doFix), last.0, last.1, doFix)
  }

  /** The fix was run (under `--fix`) and returned something truthy. */
  predicate Fixed(fix: Option<FixOutcome>, doFix: bool) {
    doFix && fix == Some(FixSucceeded)
  }

  /**
   * A check counts against the system when it raised, when it reported an error that
   * was not fixed, or when it reported a warning and the fix attempted for it did not
   * succeed.
   */
  predicate Fails(run: CheckRun, doFix: bool) {
    || run.CheckRaised?
    || (run.status == StatusError && !Fixed(run.fix, doFix))
    || (run.status == StatusWarning && doFix && run.fix.Some? && !Fixed(run.fix, doFix))
  }

  /** An error whose fix raised is listed twice: once as an error, once as a raised check. */
  predicate ListedTwice(run: CheckRun, doFix: bool) {
    run.Reported? && run.status == StatusError && doFix && run.fix == Some(FixRaised)
  }

  /** How a check is listed among the issues. */
  function Contribution(name: string, run: CheckRun, doFix: bool): seq<string> {
    if !Fails(run, doFix) then []
    else if ListedTwice(run, doFix) then [name, name]
    else [name]
  }

  /** The checks' contributions, in order. */
  function Contributions(checks: seq<(string, CheckRun)>, doFix: bool): (r: seq<string>)
    decreases |checks|
  {
    if checks == [] then []
    else
      var last := checks[|checks| - 1];
      Contributions(checks[..|checks| - 1], doFix) + Contribution(last.0, last.1, doFix)
  }

  /** The checks have pairwise different names. */
  predicate DistinctNames(checks: seq<(string, CheckRun)>) {
    forall i, j :: 0 <= i < j < |checks| ==> checks[i].0 != checks[j].0
  }

  /** Removing what was just appended, when it was not there before, restores the list. */
  lemma RemoveAppended(s: seq<string>, x: string)
    requires x !in s
    ensures RemoveFirst(s + [x], x) == s
  {
    var t := s + [x];
    assert t[..|s|] == s;
  }

  /** Every issue listed is the name of some check. */
  lemma {:induction false} ContributionsNames(checks: seq<(string, CheckRun)>, doFix: bool, y: string)
    requires y in Contributions(checks, doFix)
    ensures exists j :: 0 <= j < |checks| && checks[j].0 == y
    decreases |checks|
  {
    var n := |checks| - 1;
    if y in Contributions(checks[..n], doFix) {
      ContributionsNames(checks[..n], doFix, y);
      var j :| 0 <= j < n && checks[..n][j].0 == y;
      assert checks[j].0 == y;
    } else {
      assert checks[n].0 == y;
    }
  }

  /** Each step of the loop grows the list by exactly what the check contributes. */
  lemma StepLength(issues: seq<string>, name: string, run: CheckRun, doFix: bool)
    ensures |TallyStep(issues, name, run, doFix)| == |issues| + |Contribution(name, run, doFix)|
  {
  }

  /** However the checks are named, the list is as long as the contributions. */
  lemma {:induction false} TallyLength(checks: seq<(string, CheckRun)>, doFix: bool)
    ensures |Tally(checks, doFix)| == |Contributions(checks, doFix)|
    decreases |checks|
  {
    if checks != [] {
      var n := |checks| - 1;
      TallyLength(checks[..n], doFix);
      StepLength(Tally(checks[..n], doFix), checks[n].0, checks[n].1, doFix);
    }
  }

  /** No contribution at all exactly when no check fails. */
  lemma {:induction false} ContributionsEmpty(checks: seq<(string, CheckRun)>, doFix: bool)
    ensures Contributions(checks, doFix) == [] <==> forall i :: 0 <= i < |checks| ==> !Fails(checks[i].1, doFix)
    decreases |checks|
  {
    if checks != [] {
      var n := |checks| - 1;
      ContributionsEmpty(checks[..n], doFix);
      if Contributions(checks, doFix) == [] {
        forall i | 0 <= i < |checks|
          ensures !Fails(checks[i].1, doFix)
        {
          if i < n {
            assert checks[..n][i] == checks[i];
          }
        }
      } else if forall i :: 0 <= i < |checks| ==> !Fails(checks[i].1, doFix) {
        forall i | 0 <= i < n
          ensures !Fails(checks[..n][i].1, doFix)
        {
          assert checks[..n][i] == checks[i];
        }
        assert false;
      }
    }
  }

  /** With distinct check names the issue list is exactly the failing checks, in order. */
  lemma {:induction false} TallyIsContributions(checks: seq<(string, CheckRun)>, doFix: bool)
    requires DistinctNames(checks)
    ensures Tally(checks, doFix) == Contributions(checks, doFix)
    decreases |checks|
  {
    if checks != [] {
      var n := |checks| - 1;
      var prefix := checks[..n];
      assert DistinctNames(prefix) by {
        forall i, j | 0 <= i < j < |prefix|
          ensures prefix[i].0 != prefix[j].0
        {
          assert prefix[i] == checks[i] && prefix[j] == checks[j];
        }
      }
      TallyIsContributions(prefix, doFix);
      var name := checks[n].0;
      if name in Contributions(prefix, doFix) {
        ContributionsNames(prefix, doFix, name);
        assert false;
      }
      TallyStepAppends(Tally(prefix, doFix), name, checks[n].1, doFix);
    }
  }

  /** One check's step of the tally appends exactly its contribution when its name is not yet listed. */
  lemma TallyStepAppends(issues: seq<string>, name: string, run: CheckRun, doFix: bool)
    requires name !in issues
    ensures TallyStep(issues, name, run, doFix) == issues + Contribution(name, run, doFix)
  {
    if run.Reported? && run.status == StatusError && Fixed(run.fix, doFix) {
      RemoveAppended(issues, name);
    }
  }

  /**
   * `cmd_doctor`: run the checks in order, keep the list of issues, and return 0 when
   * the list ends empty and 1 otherwise.
   */
  method Doctor(checks: seq<(string, CheckRun)>, doFix: bool) returns (code: int, issues: seq<string>)
    ensures issues == Tally(checks, doFix)
    ensures code == 0 || code == 1
    ensures code == 0 <==> forall i :: 0 <= i < |checks| ==> !Fails(checks[i].1, doFix)
  {
    issues := [];
    for i := 0 to |checks|
      invariant issues == Tally(checks[..i], doFix)
    {
      assert checks[..i + 1][..i] == checks[..i];
      var (name, run) := checks[i];
      match run {
        case CheckRaised =>
          issues := issues + [name];
        case Reported(status, fix) =>
          if status == StatusWarning {
            if doFix && fix.Some? && fix.value != FixSucceeded {
              issues := issues + [name];
            }
          } else if status == StatusError {
            issues := issues + [name];
            if doFix && fix.Some? {
              if fix.value == FixSucceeded {
                issues := RemoveFirst(issues, name);
              } else if fix.value == FixRaised {
                issues := issues + [name];
              }
            }
          }
      }
    }
    assert checks[..|checks|] == checks;
    TallyLength(checks, doFix);
    ContributionsEmpty(checks, doFix);
    code := if issues == [] then 0 else 1;
  }

  /** The outcome of `_check_configuration`. */
  datatype ConfigCheck = ConfigValid | InvalidDaemon | InvalidMotion

  /** `isinstance(config.get(name, {}), dict)`. */
  predicate SectionIsDict(config: Config, name: string) {
    name !in config || config[name].Obj?
  }

  /** `_check_configuration`: the daemon and motion sections must be dictionaries when present. */
  function CheckConfiguration(config: Config): (r: ConfigCheck)
    ensures r == ConfigValid <==> SectionIsDict(config, "daemon") && SectionIsDict(config, "motion")
    ensures r == InvalidDaemon <==> !SectionIsDict(config, "daemon")
  {
    if !Get(config, "daemon", Obj(map[])).Obj? then InvalidDaemon
    else if !Get(config, "motion", Obj(map[])).Obj? then InvalidMotion
    else ConfigValid
  }

  /** The configuration check as `doctor` sees it: an error, offering no fix, unless valid. */
  function ConfigurationCheck(config: Config): (run: CheckRun)
    ensures forall doFix :: Fails(run, doFix) <==> CheckConfiguration(config) != ConfigValid
  {
    Reported(if CheckConfiguration(config) == ConfigValid then StatusOk else StatusError, None)
  }

  /**
   * A `config set` below the top level, or of any other section, keeps the daemon and
   * motion sections dictionaries.
   */
  lemma SetKeepsConfigurationValid(m: Config, keys: seq<string>, value: Json)
    requires |keys| >= 1 && SetPath(m, keys, value).Ok? && CheckConfiguration(m) == ConfigValid
    requires |keys| >= 2 || (keys[0] != "daemon" && keys[0] != "motion")
    ensures CheckConfiguration(SetPath(m, keys, value).value) == ConfigValid
  {
  }

  // ---------------------------------------------------------------------------
  // `daemon ACTION`
  // ---------------------------------------------------------------------------

  /** The exit code of `cmd_daemon` and whether it started or stopped the daemon. */
  datatype DaemonRun = DaemonRun(code: int, started: bool, stopped: bool)

  /**
   * `cmd_daemon`, given whether the daemon is running and whether starting and
   * stopping it would succeed.
   */
  function DaemonCommand(action: Option<string>, running: bool, startOk: bool, stopOk: bool): (r: DaemonRun)
    ensures r.code == 0 || r.code == 1
    ensures action.None? || action == Some("") ==> r == DaemonRun(1, false, false)
    ensures action.Some? && action.value !in {"", "start", "stop", "status", "restart"} ==> r == DaemonRun(1, false, false)
    ensures r.started ==> action == Some("start") || action == Some("restart")
    ensures r.stopped ==> running && (action == Some("stop") || action == Some("restart"))
    ensures action == Some("start") ==> (r.code == 0 <==> running || startOk) && (r.started <==> !running)
    ensures action == Some("stop") ==> (r.code == 0 <==> !running || stopOk) && (r.stopped <==> running)
    ensures action == Some("status") ==> r == DaemonRun(if running then 0 else 1, false, false)
    ensures action == Some("restart") ==>
      && (r.code == 0 <==> (!running || stopOk) && startOk)
      && (r.started <==> !running || stopOk)
  {
    if action.None? || action.value == "" then DaemonRun(1, false, false)
    else if action.value == "start" then
      if running then DaemonRun(0, false, false) else DaemonRun(if startOk then 0 else 1, true, false)
    else if action.value == "stop" then
      if !running then DaemonRun(0, false, false) else DaemonRun(if stopOk then 0 else 1, false, true)
    else if action.value == "status" then DaemonRun(if running then 0 else 1, false, false)
    else if action.value == "restart" then
      if running && !stopOk then DaemonRun(1, false, true)
      else DaemonRun(if startOk then 0 else 1, true, running)
    else DaemonRun(1, false, false)
  }

  // ---------------------------------------------------------------------------
  // `run SCRIPT`
  // ---------------------------------------------------------------------------

  /** The position of the last `c` in `s`, or -1 (`str.rfind`). */
  function LastIndexOf(s: string, c: char): (i: int)
    ensures -1 <= i < |s|
    ensures i >= 0 ==> s[i] == c
    ensures forall j :: i < j < |s| ==> s[j] != c
    decreases |s|
  {
    if s == [] then -1
    else if s[|s| - 1] == c then |s| - 1
    else LastIndexOf(s[..|s| - 1], c)
  }

  /** The last path component, skipping empty and "." components (`PurePath.name`). */
  function LastName(parts: seq<string>): (name: string)
    ensures name == "" || (name in parts && name != ".")
    decreases |parts|
  {
    if parts == [] then ""
    else if parts[|parts| - 1] == "" || parts[|parts| - 1] == "." then LastName(parts[..|parts| - 1])
    else parts[|parts| - 1]
  }

  /** The file name of a path. */
  function FinalName(path: string): (name: string)
    ensures '/' !in name && name != "."
  {
    var parts := Text.Split(path, '/');
    var name := LastName(parts);
    assert name != "" ==> exists k :: 0 <= k < |parts| && parts[k] == name;
    name
  }

  /** `PurePath.suffix`: from the last dot, when it is neither the first nor the last character. */
  function Suffix(name: string): string {
    var i := LastIndexOf(name, '.');
    if 0 < i < |name| - 1 then name[i..] else ""
  }

  /** A name has the suffix ".py" exactly when it ends in ".py" after at least one other character. */
  lemma PySuffix(name: string)
    ensures Suffix(name) == ".py" <==> |name| > 3 && name[|name| - 3..] == ".py"
  {
    var i := LastIndexOf(name, '.');
    if Suffix(name) == ".py" {
      assert name[i..] == ".py";
      assert |name| - i == 3;
    }
    if |name| > 3 && name[|name| - 3..] == ".py" {
      var n := |name|;
      assert name[n - 3] == '.' && name[n - 2] == 'p' && name[n - 1] == 'y';
      assert i == n - 3;
    }
  }

  /** What loading and executing the script does. */
  datatype ScriptOutcome =
    | Unloadable          // no module spec or loader for the path
    | Completed           // the module ran to its end
    | ScriptFailed        // it raised an Exception
    | ScriptInterrupted   // it raised KeyboardInterrupt

  /** An exception a command lets escape to the entry point. */
  datatype Raise = KeyboardInterrupt | OtherException

  /** The exit code of `cmd_run`, whether it tried to start the daemon, and whether it ran the script. */
  datatype RunResult = RunResult(code: int, startAttempted: bool, executed: bool)

  /** `config["daemon"]["auto_start"]` as a truth value; KeyError or TypeError when it is not there. */
  function AutoStart(config: Config): (r: Result<bool, Raise>)
    ensures r.Ok? <==> "daemon" in config && config["daemon"].Obj? && "auto_start" in config["daemon"].fields
    ensures r.Err? ==> r.error == OtherException
  {
    if "daemon" in config && config["daemon"].Obj? && "auto_start" in config["daemon"].fields
    then Ok(Truthy(config["daemon"].fields["auto_start"]))
    else Err(OtherException)
  }

  /**
   * `cmd_run`: the path must exist and name a ".py" file; a daemon that is not running
   * is started when the configuration says so; then the script is loaded and run.
   */
  function RunCommand(script: string, present: bool, config: Config, running: bool, startOk: bool, outcome: ScriptOutcome): (r: Result<RunResult, Raise>)
    ensures !present || Suffix(FinalName(script)) != ".py" ==> r == Ok(RunResult(1, false, false))
    ensures r.Ok? && r.value.executed ==> present && Suffix(FinalName(script)) == ".py"
    ensures r.Ok? && r.value.startAttempted ==> !running && AutoStart(config) == Ok(true)
    ensures r.Ok? ==> (r.value.code == 0 <==> r.value.executed && outcome == Completed)
    ensures r.Ok? && r.value.executed ==> running || startOk
    ensures r.Err? <==>
      && present && Suffix(FinalName(script)) == ".py"
      && ((!running && AutoStart(config).Err?) || ((running || (AutoStart(config) == Ok(true) && startOk)) && outcome == ScriptInterrupted))
  {
    if !present then Ok(RunResult(1, false, false))
    else if Suffix(FinalName(script)) != ".py" then Ok(RunResult(1, false, false))
    else if !running && AutoStart(config).Err? then Err(AutoStart(config).error)
    else if !running && !AutoStart(config).value then Ok(RunResult(1, false, false))
    else if !running && !startOk then Ok(RunResult(1, true, false))
    else
      match outcome
      case Unloadable => Ok(RunResult(1, !running, false))
      case Completed => Ok(RunResult(0, !running, true))
      case ScriptFailed => Ok(RunResult(1, !running, true))
      case ScriptInterrupted => Err(KeyboardInterrupt)
  }

  // ---------------------------------------------------------------------------
  // The entry point
  // ---------------------------------------------------------------------------

  /** How a command handler ends: with an exit code, interrupted, or raising something else. */
  datatype Handled = Returned(code: int) | Interrupted | RaisedOther

  /** The subcommands the parser accepts. */
  const Commands: set<string> := {"run", "doctor", "daemon", "config", "debug", "version"}

  /** A handler's result, or the exception it let escape, as the entry point receives it. */
  function Handle(r: Result<int, Raise>): Handled {
    match r
    case Ok(code) => Returned(code)
    case Err(KeyboardInterrupt) => Interrupted
    case Err(OtherException) => RaisedOther
  }

  /**
   * `main` on the subcommand word of the command line (None: none given). The
   * parser rejects a word that names no subcommand, the empty word included,
   * with status 2 before anything is dispatched, so the dispatcher's own
   * "Unknown command" branch is never reached. Without a subcommand `main`
   * prints the help and returns 1. A known one gives its handler's code, 130
   * when the handler is interrupted, and 1 when it raises anything else.
   */
  function MainExit(command: Option<string>, handle: string -> Handled): (code: int)
    ensures command.None? ==> code == 1
    ensures command.Some? && command.value !in Commands ==> code == 2
    ensures command.Some? && command.value in Commands ==>
      && (handle(command.value).Returned? ==> code == handle(command.value).code)
      && (handle(command.value) == Interrupted ==> code == 130)
      && (handle(command.value) == RaisedOther ==> code == 1)
  {
    if command.None? then 1
    else if command.value !in Commands then 2
    else
      match handle(command.value)
      case Returned(c) => c
      case Interrupted => 130
      case RaisedOther => 1
  }

  /** `browsergeist doctor` exits 0 exactly when no health check fails. */
  lemma MainDoctor(checks: seq<(string, CheckRun)>, doFix: bool, handle: string -> Handled)
    requires handle("doctor") == Returned(if Tally(checks, doFix) == [] then 0 else 1)
    ensures MainExit(Some("doctor"), handle) == 0 <==> forall i :: 0 <= i < |checks| ==> !Fails(checks[i].1, doFix)
  {
    TallyLength(checks, doFix);
    ContributionsEmpty(checks, doFix);
  }

  /**
   * With a configuration file whose daemon section lacks `auto_start`, `browsergeist run`
   * of an existing ".py" script exits 1 whenever the daemon is down, without starting it.
   */
  lemma MainRunWithoutAutoStart(f: Config, g: Config, script: string, startOk: bool, outcome: ScriptOutcome, handle: string -> Handled)
    requires "daemon" in f && f["daemon"] == Obj(g) && "auto_start" !in g
    requires Suffix(FinalName(script)) == ".py"
    requires LoadConfig(Decoded(Obj(f))).Ok?
    requires handle("run") == Handle(
      match RunCommand(script, true, LoadConfig(Decoded(Obj(f))).value.config, false, startOk, outcome)
      case Ok(run) => Ok(run.code)
      case Err(e) => Err(e))
    ensures MainExit(Some("run"), handle) == 1
  {
    FileSectionReplacesDefault(f, g);
  }

  // ---------------------------------------------------------------------------
  // The command-line object
  // ---------------------------------------------------------------------------

  /** The command-line object: its configuration and what it last wrote to the configuration file. */
  class CommandLine {
    var config: Config
    var saved: Option<Config>

    /** Load the configuration; the defaults are written to the file when none was usable. */
    constructor(file: ConfigFile)
      requires LoadConfig(file).Ok?
      ensures config == LoadConfig(file).value.config
      ensures saved == (if LoadConfig(file).value.savesDefaults then Some(Defaults) else None)
    {
      var loaded := LoadConfig(file).value;
      config := loaded.config;
      saved := if loaded.savesDefaults then Some(Defaults) else None;
    }

    /**
     * `config set KEY VALUE`: walk the dotted key, creating missing sections, assign
     * the leaf and save; on a non-dictionary on the way, change and save nothing and
     * return 1.
     */
    method ConfigSet(key: string, raw: string, decode: string -> Option<Json>) returns (code: int)
      modifies this
      ensures var r := SetPath(old(config), Text.Split(key, '.'), ParseValue(raw, decode));
        && (r.Ok? ==> config == r.value && saved == Some(r.value) && code == 0)
        && (r.Err? ==> config == old(config) && saved == old(saved) && code == 1)
    {
      var keys := Text.Split(key, '.');
      var value := ParseValue(raw, decode);
      var section := config;
      for i := 0 to |keys| - 1
        invariant config == old(config) && saved == old(saved)
        invariant Descend(config, keys[..i]) == Some(section)
      {
        assert keys[..i + 1] == keys[..i] + [keys[i]];
        DescendSnoc(config, keys[..i], keys[i]);
        var k := keys[i];
        if k !in section {
          section := map[];
        } else if section[k].Obj? {
          section := section[k].fields;
        } else {
          assert keys[..|keys| - 1][..i + 1] == keys[..i + 1];
          DescendBlockedPrefix(config, keys[..|keys| - 1], i + 1);
          SetPathSucceeds(config, keys, value);
          return 1;
        }
      }
      SetPathSucceeds(config, keys, value);
      config := SetPath(config, keys, value).value;
      saved := Some(config);
      return 0;
    }
  }
}
