/** Configuration resolution. A value is looked up, in order, as a JVM system
    property, as an environment variable and in the properties file (under
    the system-property key); the first source holding non-blank text wins,
    and a built-in default is used when none does. The three sources are
    inputs here: the JVM property table, the process environment and the
    loaded properties file, each as a finite map (an absent or unreadable
    file is the empty map). */
module PerfConfig {
  import opened Wrappers
  import opened Text
  import opened Integers
  import PerfProfile

  datatype Sources = Sources(
    systemProperties: map<string, string>,
    environment: map<string, string>,
    fileProperties: map<string, string>)

  /** Nothing set anywhere. */
  const NoSources := Sources(map[], map[], map[])

  /** A configuration item: its system-property key (also its key in the
      properties file), its environment-variable name. */
  datatype Setting = Setting(key: string, env: string)

  const ProfileSetting := Setting("perf.profile", "PERF_PROFILE")
  const ApiBaseUrlSetting := Setting("api.baseUrl", "API_BASE_URL")
  const HttpTimeoutSetting := Setting("http.timeoutMs", "HTTP_TIMEOUT_MS")

  const DefaultProfile := "smoke"
  const DefaultApiBaseUrl := "http://localhost:8080"
  const DefaultRequestTimeoutMs: Int32 := 10_000

  /** `Map.get`: the value under `k`, `None` standing for Java's `null`. */
  function Get(m: map<string, string>, k: string): Option<string> {
    if k in m then Some(m[k]) else None
  }

  /** A source counts only when it holds non-blank text. */
  predicate Present(o: Option<string>) {
    o.Some? && !IsBlank(o.value)
  }

  /** The three lookups for `s`, in precedence order. */
  function Candidates(src: Sources, s: Setting): (cs: seq<Option<string>>)
    ensures |cs| == 3
  {
    [Get(src.systemProperties, s.key), Get(src.environment, s.env), Get(src.fileProperties, s.key)]
  }

  /** Reference definition of precedence: the first candidate holding
      non-blank text. */
  function FirstPresent(cs: seq<Option<string>>): (r: Option<string>)
    ensures r.Some? <==> exists i :: 0 <= i < |cs| && Present(cs[i])
    ensures r.Some? ==>
      exists i :: 0 <= i < |cs| && cs[i] == r && Present(cs[i]) && forall j :: 0 <= j < i ==> !Present(cs[j])
  {
    if |cs| == 0 then None
    else if Present(cs[0]) then cs[0]
    else
      var r := FirstPresent(cs[1..]);
      assert forall i :: 1 <= i < |cs| ==> cs[i] == cs[1..][i - 1];
      r
  }

  /** `readOptional`: system property, else environment variable, else the
      properties file under the system-property key; a blank value is
      skipped like an absent one. */
  function ReadOptional(src: Sources, s: Setting): (r: Option<string>)
    ensures r.Some? ==> !IsBlank(r.value)
    ensures r.Some? ==>
      || r == Get(src.systemProperties, s.key)
      || r == Get(src.environment, s.env)
      || r == Get(src.fileProperties, s.key)
    ensures r.None? <==>
      && !Present(Get(src.systemProperties, s.key))
      && !Present(Get(src.environment, s.env))
      && !Present(Get(src.fileProperties, s.key))
  {
    var fromSystemProperty := Get(src.systemProperties, s.key);
    if Present(fromSystemProperty) then fromSystemProperty
    else
      var fromEnv := Get(src.environment, s.env);
      if Present(fromEnv) then fromEnv
      else
        var fromFile := Get(src.fileProperties, s.key);
        if Present(fromFile) then fromFile else None
  }

  /** `read`: the winning source's text, trimmed; otherwise the default,
      untouched. */
  function Read(src: Sources, s: Setting, default: string): (r: string)
    ensures ReadOptional(src, s).None? ==> r == default
    ensures ReadOptional(src, s).Some? ==> r == Trim(ReadOptional(src, s).value)
  {
    match ReadOptional(src, s)
    case Some(v) => Trim(v)
    case None => default
  }

  /** `parseInt`: `Integer.parseInt` of the trimmed text, or the default
      when that throws. */
  function ParseIntOr(value: string, default: Int32): (r: Int32)
    ensures ParseInt32(Trim(value)).Some? ==> r == ParseInt32(Trim(value)).value
    ensures ParseInt32(Trim(value)).None? ==> r == default
  {
    ParseInt32(Trim(value)).GetOr(default)
  }

  /** `readInt`: `read` with the default's decimal text as fallback, then
      `parseInt` with the default as fallback. No range or sign check: zero
      and negative values come through unchanged. */
  function ReadInt(src: Sources, s: Setting, default: Int32): (r: Int32)
    ensures ReadOptional(src, s).None? ==> r == default
    ensures ReadOptional(src, s).Some? ==>
      r == ParseInt32(Trim(ReadOptional(src, s).value)).GetOr(default)
  {
    var text := Read(src, s, IntToString(default));
    ParseIntToString(default);
    TrimUnpadded(IntToString(default));
    TrimIdempotent(ReadOptional(src, s).GetOr(""));
    ParseIntOr(text, default)
  }

  /** The resolved configuration snapshot. */
  datatype Config = Config(profile: PerfProfile.Profile, apiBaseUrl: string, requestTimeoutMs: Int32)

  /** `PerfConfig.load`: profile, base URL and timeout, in that order. The
      profile is `from` applied to the resolved profile text; `load` fails
      exactly when that throws, and the failure propagates. */
  function Load(src: Sources): (r: Result<Config, PerfProfile.ProfileError>)
    ensures r.Failure? <==> PerfProfile.From(Some(Read(src, ProfileSetting, DefaultProfile))).Failure?
    ensures r.Success? ==> PerfProfile.From(Some(Read(src, ProfileSetting, DefaultProfile))) == Success(r.value.profile)
    ensures r.Failure? ==>
      && ReadOptional(src, ProfileSetting).Some?
      && r.error == PerfProfile.UnsupportedProfile(Read(src, ProfileSetting, DefaultProfile))
    ensures r.Success? ==>
      && r.value.apiBaseUrl == Read(src, ApiBaseUrlSetting, DefaultApiBaseUrl)
      && r.value.requestTimeoutMs == ReadInt(src, HttpTimeoutSetting, DefaultRequestTimeoutMs)
  {
    var profileText := Read(src, ProfileSetting, DefaultProfile);
    assert ReadOptional(src, ProfileSetting).None? ==> PerfProfile.From(Some(profileText)).Success? by {
      if ReadOptional(src, ProfileSetting).None? {
        PerfProfile.FromCaseInsensitive(DefaultProfile, PerfProfile.Smoke);
      }
    }
    match PerfProfile.From(Some(profileText))
    case Failure(e) => Failure(e)
    case Success(profile) =>
      Success(Config(
        profile,
        Read(src, ApiBaseUrlSetting, DefaultApiBaseUrl),
        ReadInt(src, HttpTimeoutSetting, DefaultRequestTimeoutMs)))
  }

  /** `readOptional` is the reference precedence rule applied to the three
      candidates. */
  lemma ReadOptionalIsFirstPresent(src: Sources, s: Setting)
    ensures ReadOptional(src, s) == FirstPresent(Candidates(src, s))
  {
    var cs := Candidates(src, s);
    assert cs[1..][1..] == [cs[2]];
    assert cs[1..][1..][1..] == [];
  }

  /** A non-blank system property wins whatever the other sources hold. */
  lemma SystemPropertyWins(src: Sources, s: Setting, v: string)
    requires s.key in src.systemProperties && src.systemProperties[s.key] == v && !IsBlank(v)
    ensures ReadOptional(src, s) == Some(v)
    ensures forall env, file :: ReadOptional(Sources(src.systemProperties, env, file), s) == Some(v)
  {
  }

  /** Without a usable system property, a non-blank environment variable
      wins over the file. */
  lemma EnvironmentBeatsFile(src: Sources, s: Setting, v: string)
    requires !Present(Get(src.systemProperties, s.key))
    requires s.env in src.environment && src.environment[s.env] == v && !IsBlank(v)
    ensures forall file :: ReadOptional(Sources(src.systemProperties, src.environment, file), s) == Some(v)
  {
  }

  /** With neither of those usable, the file is read under the
      system-property key; an entry under the environment-variable name is
      never consulted. */
  lemma FileUsesPropertyKey(src: Sources, s: Setting, v: string)
    requires !Present(Get(src.systemProperties, s.key)) && !Present(Get(src.environment, s.env))
    requires s.env != s.key
    ensures ReadOptional(src, s) == ReadOptional(src.(fileProperties := src.fileProperties - {s.env}), s)
    ensures ReadOptional(src.(fileProperties := src.fileProperties[s.key := v]), s)
      == (if IsBlank(v) then None else Some(v))
  {
  }

  /** A blank value behaves exactly like a missing one, in every source. */
  lemma BlankIsAbsent(src: Sources, s: Setting)
    ensures Get(src.systemProperties, s.key).Some? && IsBlank(src.systemProperties[s.key]) ==>
      ReadOptional(src, s) == ReadOptional(src.(systemProperties := src.systemProperties - {s.key}), s)
    ensures Get(src.environment, s.env).Some? && IsBlank(src.environment[s.env]) ==>
      ReadOptional(src, s) == ReadOptional(src.(environment := src.environment - {s.env}), s)
    ensures Get(src.fileProperties, s.key).Some? && IsBlank(src.fileProperties[s.key]) ==>
      ReadOptional(src, s) == ReadOptional(src.(fileProperties := src.fileProperties - {s.key}), s)
  {
  }

  /** `parseInt` never fails: text that is not an `int` literal gives the
      default. */
  lemma ParseIntOrFallsBack(d: Int32)
    ensures ParseIntOr("abc", d) == d
    ensures ParseIntOr("", d) == d
    ensures ParseIntOr("-", d) == d
  {
    assert !IsDigit('a');
    assert Trim("abc") == "abc";
    assert Trim("-") == "-";
  }

  /** Surrounding spaces and a leading `+` are accepted. */
  lemma ParseIntOrTrims(d: Int32)
    ensures ParseIntOr(" +42 ", d) == 42
  {
    var text := " +42 ";
    assert TrimStartIndex(text, 1) == 1;
    assert TrimEndIndex(text, 1, 4) == 4;
    assert text[1..4] == "+42";
    ParseIntPlusSign();
  }

  /** With nothing configured, `load` yields the built-in defaults. */
  lemma LoadDefaults()
    ensures Load(NoSources) == Success(Config(PerfProfile.Smoke, "http://localhost:8080", 10000))
  {
    PerfProfile.FromCaseInsensitive(DefaultProfile, PerfProfile.Smoke);
  }

  /** An unsupported profile makes `load` fail; the error carries the text
      as `read` returned it, that is, already trimmed. */
  lemma LoadRejectsUnknownProfile()
    ensures Load(Sources(map["perf.profile" := " fast "], map[], map[]))
      == Failure(PerfProfile.UnsupportedProfile("fast"))
  {
    var text := " fast ";
    assert !IsWhitespace(text[1]);
    assert TrimStartIndex(text, 1) == 1;
    assert TrimEndIndex(text, 1, 5) == 5;
    assert text[1..5] == "fast";
    assert Trim(text) == "fast";
    assert TrimStartIndex("fast", 0) == 0;
    assert TrimEndIndex("fast", 0, 4) == 4;
    assert ToLower(Trim("fast")) == "fast";
  }

  /** `readInt` applies no sign check: a negative timeout from the
      environment is taken as it is, ahead of the file. */
  lemma ReadIntKeepsNegative()
    ensures ReadInt(Sources(map[], map["HTTP_TIMEOUT_MS" := "-5"], map["http.timeoutMs" := "20"]),
                    HttpTimeoutSetting, DefaultRequestTimeoutMs) == -5
  {
    var src := Sources(map[], map["HTTP_TIMEOUT_MS" := "-5"], map["http.timeoutMs" := "20"]);
    assert !IsWhitespace("-5"[0]);
    assert Get(src.systemProperties, HttpTimeoutSetting.key) == None;
    assert Get(src.environment, HttpTimeoutSetting.env) == Some("-5");
    assert ReadOptional(src, HttpTimeoutSetting) == Some("-5");
    assert TrimStartIndex("-5", 0) == 0;
    assert TrimEndIndex("-5", 0, 2) == 2;
    assert Trim("-5") == "-5";
    assert "-5"[1..] == "5" && "5"[..0] == "";
    assert DigitsValue("5") == 5;
    assert ParseInt32("-5") == Some(-5);
  }
}
