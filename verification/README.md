# Fintech performance suite: configuration, profiles and templates

This project is a Dafny model of the logic inside a Gatling load-test suite for a
fintech HTTP API. The Gatling simulations themselves are not modelled. Four pieces are:

- **Configuration resolution** (`PerfConfig`). A setting is looked up as a JVM system
  property, then as an environment variable, then in `application-performance.properties`
  under the system-property key. A source holding blank text is skipped, and the winning
  text is trimmed. If no source holds a value, a built-in default is used as it is.
  `readInt` parses the result with `Integer.parseInt`. When that throws, it falls back to
  the default. `load` resolves the profile, the API base URL and the request timeout.
- **Profile parsing** (`PerfProfile.from`). Absent or blank text selects SMOKE. Otherwise
  the trimmed, lower-cased text must be `smoke`, `baseline` or `stress`. Any other text is
  a failure that carries the input unchanged.
- **Load profiles** (`LoadProfile`). Each profile maps to a two-phase injection schedule:
  a ramp, then a constant arrival rate. Counts and rates scale linearly with `scale`;
  durations stay fixed. Each profile also has a p95 latency ceiling and a maximum
  error-rate percentage.
- **Request templates** (`RequestBodyTemplates`, `HttpConstants`). These are exact string
  concatenations around Gatling `#{expr}` placeholders.

Modules, one per source unit plus three helpers:

| file | module | models |
|---|---|---|
| `wrappers.dfy` | `Wrappers` | `Option` (Java `null`) and `Result` (a thrown exception) |
| `text.dfy` | `Text` | `String.isBlank`, `String.trim`, `String.toLowerCase` |
| `integers.dfy` | `Integers` | `Integer.parseInt` and `String.valueOf(int)` over the `int` range |
| `perf_profile.dfy` | `PerfProfile` | the `PerfProfile` enum and `from` |
| `perf_config.dfy` | `PerfConfig` | `readOptional`, `read`, `readInt`, `parseInt`, `load` |
| `load_profile.dfy` | `LoadProfile` | `userInjection`, `p95Ms`, `maxErrorRatePercent` |
| `expressions.dfy` | `Expressions` | the `#{…}` placeholder shared by the templates |
| `http_constants.dfy` | `HttpConstants` | `BEARER_PREFIX`, `bearerSessionToken` |
| `request_body_templates.dfy` | `RequestBodyTemplates` | `auth`, `fundAmount`, `payment`, `AUTH_BODY_USERNAME_PASSWORD` |

The three configuration sources are inputs to the model. Each is a finite
`map<string, string>`, and a missing key stands for Java's `null`. The JVM property
table, the process environment and the loaded properties file become three maps. A
missing or unreadable properties file is the empty map.

`isBlank` and `trim` do not agree on what "space" means. `isBlank` checks
`Character.isWhitespace` for every character. `trim` removes every character up to
U+0020 from both ends. The model keeps both definitions as Java has them, and this shows
one edge case. A NUL character is not blank, so `from("\0")` fails, yet it trims to `""`,
and `from("")` selects SMOKE. So `from(s)` and `from(trim(s))` agree only when trimming
does not change whether the text is blank. `FromIgnoresPadding` proves that agreement,
`FromIgnoresOrdinaryPadding` proves it for all text without low control characters, and
`FromNulIsNotPadding` exhibits the exception.

Two simulations call `config.loadScale()` (PaymentFlowSimulation.java:93 and
AccountFundingSimulation.java:71), but `PerfConfig` defines no such method, so the scale
that reaches `userInjection` has no source in the model. `userInjection` does not clamp
`scale`, and `readInt` accepts a zero or negative timeout.

## Model

| member | source | states |
|---|---|---|
| PerfConfig.ReadOptional | src/gatling/java/com/example/fintech/perf/config/PerfConfig.java:62-79 | a found value is non-blank and is the system property, the environment variable or the file entry; nothing is found exactly when all three are absent or blank |
| PerfConfig.ReadOptionalIsFirstPresent | src/gatling/java/com/example/fintech/perf/config/PerfConfig.java:62-79 | `readOptional` equals the reference rule: the first non-blank candidate in the order system property, environment variable, file under the property key |
| PerfConfig.SystemPropertyWins | src/gatling/java/com/example/fintech/perf/config/PerfConfig.java:63-66 | a non-blank system property is returned whatever the environment and the file contain |
| PerfConfig.EnvironmentBeatsFile | src/gatling/java/com/example/fintech/perf/config/PerfConfig.java:68-71 | with the system property absent or blank, a non-blank environment variable is returned whatever the file contains |
| PerfConfig.FileUsesPropertyKey | src/gatling/java/com/example/fintech/perf/config/PerfConfig.java:73-76 | with both earlier sources unusable, the file entry under the property key decides; a file entry under the environment-variable name is ignored |
| PerfConfig.BlankIsAbsent | src/gatling/java/com/example/fintech/perf/config/PerfConfig.java:63-76 | in each of the three sources, a blank value gives the same result as removing the key |
| PerfConfig.Read | src/gatling/java/com/example/fintech/perf/config/PerfConfig.java:51-54 | when a source is found, its value trimmed; otherwise the default, not trimmed |
| PerfConfig.ParseIntOr | src/gatling/java/com/example/fintech/perf/config/PerfConfig.java:81-87 | the trimmed text's `int` value when it is an `int` literal, otherwise the default, never an error |
| PerfConfig.ParseIntOrFallsBack | src/gatling/java/com/example/fintech/perf/config/PerfConfig.java:81-87 | "abc", "" and "-" all give the default |
| PerfConfig.ParseIntOrTrims | src/gatling/java/com/example/fintech/perf/config/PerfConfig.java:83 | " +42 " parses to 42: surrounding spaces and a leading plus sign are accepted |
| PerfConfig.ReadInt | src/gatling/java/com/example/fintech/perf/config/PerfConfig.java:56-60 | with no source found the result is the default itself, because `parseInt(valueOf(d))` is `d`; otherwise the parsed source text or the default |
| PerfConfig.ReadIntKeepsNegative | src/gatling/java/com/example/fintech/perf/config/PerfConfig.java:56-60 | an environment value "-5" is returned as -5, ahead of the file, with no sign check |
| PerfConfig.Load | src/gatling/java/com/example/fintech/perf/config/PerfConfig.java:31-37 | `load` fails exactly when `from` rejects the resolved profile text, which needs some source to set the profile, and the failure carries that trimmed text; on success the profile is the one `from` selects and the base URL and timeout are the resolved values |
| PerfConfig.LoadDefaults | src/gatling/java/com/example/fintech/perf/config/PerfConfig.java:31-37 | with no source set, `load` gives SMOKE, "http://localhost:8080" and 10000 ms (the defaults at lines 10-13) |
| PerfConfig.LoadRejectsUnknownProfile | src/gatling/java/com/example/fintech/perf/config/PerfConfig.java:32 | a profile property " fast " makes `load` fail with the trimmed text "fast" |
| Integers.ParseInt32 | src/gatling/java/com/example/fintech/perf/config/PerfConfig.java:83 | reference definition of `Integer.parseInt`: a parsed value comes from an optional sign and decimal digits, and its sign matches the text |
| Integers.ParseIntJava | src/gatling/java/com/example/fintech/perf/config/PerfConfig.java:83 | the JDK's loop, with negative accumulation and the truncated `multmin` overflow guard, returns exactly the reference result on every input |
| Integers.IntToString | src/gatling/java/com/example/fintech/perf/config/PerfConfig.java:57 | `String.valueOf(int)` is non-empty, starts with '-' exactly for negatives and ends in a digit |
| Integers.ParseIntToString | src/gatling/java/com/example/fintech/perf/config/PerfConfig.java:57-59 | round trip: parsing `String.valueOf(n)` gives back `n` for every `int`, including the minimum |
| Text.IsWhitespace | src/gatling/java/com/example/fintech/perf/config/PerfProfile.java:9 | `Character.isWhitespace`: of the characters `trim` removes, all but the controls outside TAB..CR and FS..US; above SPACE only non-ASCII separators, never a no-break space |
| Text.IsBlank | src/gatling/java/com/example/fintech/perf/config/PerfConfig.java:64-74 | `isBlank` scans for the first non-whitespace character and holds exactly when every character is whitespace, so the empty string is blank |
| Text.Trim | src/gatling/java/com/example/fintech/perf/config/PerfConfig.java:53 | `trim` keeps one infix; everything cut from either end is at most U+0020, and the kept part neither starts nor ends with such a character |
| Text.ToLower | src/gatling/java/com/example/fintech/perf/config/PerfProfile.java:13 | `toLowerCase` keeps the length, leaves no upper-case ASCII letter, and changes nothing else |
| Text.ToLowerIdempotent | src/gatling/java/com/example/fintech/perf/config/PerfProfile.java:13 | lower-casing an already lower-cased string changes nothing |
| Text.TrimEmpty | src/gatling/java/com/example/fintech/perf/config/PerfProfile.java:13 | `trim` gives the empty string exactly when every character is at most U+0020 |
| PerfProfile.Profile.Name | src/gatling/java/com/example/fintech/perf/config/PerfProfile.java:3-6 | each constant's `name()` is non-empty upper-case letters whose lower-case form is the keyword `from` accepts |
| PerfProfile.ProfileError.Message | src/gatling/java/com/example/fintech/perf/config/PerfProfile.java:17-18 | the message is "Unsupported perf.profile: ", the rejected input unchanged, then ". Supported: smoke\|baseline\|stress"; the input can be read back from it |
| PerfProfile.MessageInjective | src/gatling/java/com/example/fintech/perf/config/PerfProfile.java:17-18 | distinct rejected inputs give distinct messages |
| PerfProfile.Lookup | src/gatling/java/com/example/fintech/perf/config/PerfProfile.java:13-18 | the normalised text names a profile exactly when it equals that profile's keyword |
| PerfProfile.From | src/gatling/java/com/example/fintech/perf/config/PerfProfile.java:8-20 | absent or blank input gives SMOKE; non-blank input succeeds exactly when its trimmed, lower-cased form is a keyword, and then gives that profile; a failure carries the original untrimmed input |
| PerfProfile.FromNonBlank | src/gatling/java/com/example/fintech/perf/config/PerfProfile.java:13-18 | for non-blank input, the outcome depends only on the trimmed, lower-cased text |
| PerfProfile.FromCaseInsensitive | src/gatling/java/com/example/fintech/perf/config/PerfProfile.java:13-16 | every spelling whose lower-case form is "smoke", "baseline" or "stress" selects that profile, whatever the letter case |
| PerfProfile.FromLowerName | src/gatling/java/com/example/fintech/perf/config/PerfProfile.java:4-16 | round trip: the lower-cased enum name of each constant parses back to that constant |
| PerfProfile.FromIgnoresPadding | src/gatling/java/com/example/fintech/perf/config/PerfProfile.java:9-13 | when trimming keeps blankness, `from(s)` and `from(trim(s))` select the same profile or both fail |
| PerfProfile.FromIgnoresOrdinaryPadding | src/gatling/java/com/example/fintech/perf/config/PerfProfile.java:9-13 | text without low control characters always meets that condition |
| PerfProfile.FromNulIsNotPadding | src/gatling/java/com/example/fintech/perf/config/PerfProfile.java:9-13 | "\0" is rejected, but its trimmed form "" selects SMOKE |
| LoadProfile.UserInjection | src/gatling/java/com/example/fintech/perf/config/LoadProfile.java:24-39 | for every profile, exactly two phases, a ramp then a constant rate; both durations are positive; the ramp count is an `int`; counts and rates are positive at a positive scale and zero at scale zero |
| LoadProfile.UserInjectionTable | src/gatling/java/com/example/fintech/perf/config/LoadProfile.java:26-37 | at scale 1: SMOKE 5 users over 20 s then 2.0/s over 20 s; BASELINE 20 over 60 s then 8.0/s over 120 s; STRESS 60 over 120 s then 20.0/s over 180 s |
| LoadProfile.UserInjectionLinear | src/gatling/java/com/example/fintech/perf/config/LoadProfile.java:27-36 | the schedule at scale k is the scale-1 schedule with each count and rate multiplied by k, with no clamping |
| LoadProfile.DurationsIgnoreScale | src/gatling/java/com/example/fintech/perf/config/LoadProfile.java:27-36 | phase kinds and durations do not depend on the scale |
| LoadProfile.HeavierProfileMoreLoad | src/gatling/java/com/example/fintech/perf/config/LoadProfile.java:26-37 | at a positive scale, a later profile has a strictly larger ramp, a strictly higher rate and phases at least as long |
| LoadProfile.P95Ms | src/gatling/java/com/example/fintech/perf/config/LoadProfile.java:41-47 | the p95 ceiling is a positive number of milliseconds for every profile, with no error path |
| LoadProfile.MaxErrorRatePercent | src/gatling/java/com/example/fintech/perf/config/LoadProfile.java:49-55 | the error-rate ceiling is a percentage in (0, 100] for every profile, with no error path |
| LoadProfile.ThresholdTable | src/gatling/java/com/example/fintech/perf/config/LoadProfile.java:12-18 | the p95 ceilings are 150, 300 and 600 ms and the error-rate ceilings 0.5, 1.0 and 2.0 percent for SMOKE, BASELINE and STRESS |
| LoadProfile.ThresholdsIncrease | src/gatling/java/com/example/fintech/perf/config/LoadProfile.java:12-18 | both thresholds rise strictly from SMOKE through STRESS and double at each tier |
| Expressions.Placeholder | src/gatling/java/com/example/fintech/perf/constants/HttpConstants.java:13 | `#{e}` is three characters longer than `e`, and `e` can be read back from between the delimiters |
| Expressions.PlaceholderInjective | src/gatling/java/com/example/fintech/perf/constants/HttpConstants.java:13 | equal placeholders have equal expressions |
| HttpConstants.BearerSessionToken | src/gatling/java/com/example/fintech/perf/constants/HttpConstants.java:12-14 | the header value starts with "Bearer ", continues with the placeholder, is `\|e\| + 10` long, and gives back `e` at offsets 9 to length-1 |
| HttpConstants.BearerSessionTokenInjective | src/gatling/java/com/example/fintech/perf/constants/HttpConstants.java:13 | distinct expressions give distinct header values |
| HttpConstants.BearerPayerToken | src/gatling/java/com/example/fintech/perf/simulation/PaymentFlowSimulation.java:65 | the payer's header value is exactly "Bearer #{payerToken}" |
| RequestBodyTemplates.Auth | src/gatling/java/com/example/fintech/perf/constants/RequestBodyTemplates.java:11-13 | the body is 35 characters longer than its two expressions together, and starts with '{' and ends with '}' |
| RequestBodyTemplates.AuthPieces | src/gatling/java/com/example/fintech/perf/constants/RequestBodyTemplates.java:12 | the body is fixed text, the username expression, the fixed separator `}","password":"#{`, the password expression, fixed text |
| RequestBodyTemplates.AuthFields | src/gatling/java/com/example/fintech/perf/constants/RequestBodyTemplates.java:12 | both expressions can be read back from the body at offsets fixed by the username's length |
| RequestBodyTemplates.AuthInjective | src/gatling/java/com/example/fintech/perf/constants/RequestBodyTemplates.java:12 | bodies that are equal, with usernames of equal length, have equal usernames and passwords |
| RequestBodyTemplates.AuthAmbiguous | src/gatling/java/com/example/fintech/perf/constants/RequestBodyTemplates.java:12 | without that length condition the body is ambiguous: the separator can move from one expression into the other |
| RequestBodyTemplates.AuthAmbiguousExample | src/gatling/java/com/example/fintech/perf/constants/RequestBodyTemplates.java:12 | a concrete pair of distinct argument pairs giving the same body |
| RequestBodyTemplates.AuthBodyUsernamePasswordText | src/gatling/java/com/example/fintech/perf/constants/RequestBodyTemplates.java:5 | `AUTH_BODY_USERNAME_PASSWORD` is exactly `{"username":"#{username}","password":"#{password}"}` |
| RequestBodyTemplates.FundAmount | src/gatling/java/com/example/fintech/perf/constants/RequestBodyTemplates.java:15-17 | the body is `{"amount":`, then the amount unquoted, then `}`; it is 11 characters longer than the amount |
| RequestBodyTemplates.FundAmountInjective | src/gatling/java/com/example/fintech/perf/constants/RequestBodyTemplates.java:16 | distinct amounts give distinct bodies |
| RequestBodyTemplates.Payment | src/gatling/java/com/example/fintech/perf/constants/RequestBodyTemplates.java:19-21 | the body is 55 characters longer than its three arguments together, and starts with '{' and ends with '}' |
| RequestBodyTemplates.PaymentPieces | src/gatling/java/com/example/fintech/perf/constants/RequestBodyTemplates.java:20 | the body is fixed text around the two account placeholders and the quoted amount |
| RequestBodyTemplates.PaymentFields | src/gatling/java/com/example/fintech/perf/constants/RequestBodyTemplates.java:20 | the from-account, to-account and amount can be read back at offsets fixed by the account expressions' lengths; the amount sits between quotes |
| RequestBodyTemplates.PaymentInjective | src/gatling/java/com/example/fintech/perf/constants/RequestBodyTemplates.java:20 | bodies that are equal, with account expressions of equal lengths, have equal arguments |

## Left out

- `loadFileProperties` (classpath I/O), `System.getProperty` and `System.getenv`: replaced by the three input maps of `PerfConfig.Sources`. The properties file's own syntax (`Properties.load`) is not modelled; the map holds what it would produce.
- The `PerfConfig` accessors `profile()`, `apiBaseUrl()` and `requestTimeoutMs()`: they are the fields of the `Config` datatype.
- The Gatling simulations (`PaymentFlowSimulation`, `AccountFundingSimulation`, `AuthFlowSimulation`) and `BaseSimulation`: HTTP chains, status and JSON-path checks, and SLA assertions that the external engine runs.
- What Gatling does with an injection step (arrival times, virtual users): `LoadProfile.Phase` only records the step's parameters.
- `Users.username`: it draws a random UUID, so its uniqueness is not something the model can state.
- `ApiEndpoints`, `RequestNames`, `TestDataConstants`: bare constants with no behaviour. `AUTHORIZATION_HEADER` is kept as a constant only.
- `config.loadScale()`, called by two simulations: `PerfConfig` in this repository defines no such method, so there is nothing to model.
- LoadProfile.UserInjection: it requires `60 * scale` to fit a Java `int` instead of modelling the wrap-around of `5 * scale`, `20 * scale` and `60 * scale` on overflow.
- LoadProfile.MaxErrorRatePercent: the rates and percentages are Dafny reals, not IEEE doubles. All values involved (0.5, 1.0, 2.0 and `k * scale` for `int` scales) are exact in a double.
- Text.ToLower: lower-cases ASCII letters only. Java's `toLowerCase` also maps some non-ASCII letters onto ASCII ones (KELVIN SIGN to `k`), and under a Turkish default locale it maps `I` to a dotless `ı`, which would make "BASELINE" unsupported. Neither is modelled.
- Integers.ParseInt32: accepts ASCII digits only. `Character.digit` also accepts other Unicode decimal digits.
- Text.IsWhitespace: covers `Character.isWhitespace` for characters of the Basic Multilingual Plane. No supplementary character is whitespace. Java strings are UTF-16, but `trim` and `isBlank` only act on characters at most U+3000, so treating a Dafny string as a sequence of code points changes nothing here.
- `null` arguments to the template builders (Java would splice in the text "null"): the model takes strings only. `PerfProfile.from` is the one place where `null` reaches the core; it is modelled there as `None`.
