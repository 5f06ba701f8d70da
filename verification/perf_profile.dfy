/** The load-intensity tier and its parsing from configuration text. */
module PerfProfile {
  import opened Wrappers
  import opened Text

  datatype Profile = Smoke | Baseline | Stress {

    /** The enum constant's `name()`: upper-case letters that lower-case to
        the profile's keyword. */
    function Name(): (n: string)
      ensures |n| > 0
      ensures forall i :: 0 <= i < |n| ==> 'A' <= n[i] <= 'Z'
      ensures ToLower(n) == Keyword(this)
    {
      match this
      case Smoke => "SMOKE"
      case Baseline => "BASELINE"
      case Stress => "STRESS"
    }

    /** The enum constant's `ordinal()`: declaration order. */
    function Ordinal(): nat {
      match this
      case Smoke => 0
      case Baseline => 1
      case Stress => 2
    }
  }

  /** The `IllegalArgumentException` thrown for an unknown profile; it keeps
      the text exactly as it was passed in. */
  datatype ProfileError = UnsupportedProfile(value: string) {
    /** The exception message: fixed text around the rejected input, which
        can be read back from between the two fixed parts. */
    function Message(): (m: string)
      ensures |m| == |MessageHead| + |value| + |MessageTail|
      ensures m[..|MessageHead|] == MessageHead
      ensures m[|MessageHead|..|m| - |MessageTail|] == value
      ensures m[|m| - |MessageTail|..] == MessageTail
    {
      MessageHead + value + MessageTail
    }
  }

  const MessageHead := "Unsupported perf.profile: "
  const MessageTail := ". Supported: smoke|baseline|stress"

  /** Distinct rejected inputs give distinct messages. */
  lemma MessageInjective(e: ProfileError, f: ProfileError)
    ensures e.Message() == f.Message() ==> e == f
  {
  }

  /** The lower-case text that selects each profile. */
  function Keyword(p: Profile): (k: string)
    ensures |k| > 0
    ensures forall i :: 0 <= i < |k| ==> 'a' <= k[i] <= 'z'
  {
    match p
    case Smoke => "smoke"
    case Baseline => "baseline"
    case Stress => "stress"
  }

  /** The `switch` over the normalised text: which profile, if any, the
      text names. */
  function Lookup(key: string): (r: Option<Profile>)
    ensures r.Some? <==> exists p :: key == Keyword(p)
    ensures r.Some? ==> key == Keyword(r.value)
  {
    if key == "smoke" then assert key == Keyword(Smoke); Some(Smoke)
    else if key == "baseline" then assert key == Keyword(Baseline); Some(Baseline)
    else if key == "stress" then assert key == Keyword(Stress); Some(Stress)
    else
      None
  }

  /** `PerfProfile.from`: absent (`null`) or blank text selects SMOKE;
      otherwise the trimmed, lower-cased text must name a profile, and
      anything else is a failure carrying the untouched input. */
  function From(value: Option<string>): (r: Result<Profile, ProfileError>)
    ensures value.None? || IsBlank(value.value) ==> r == Success(Smoke)
    ensures value.Some? && !IsBlank(value.value) ==>
      (r.Success? <==> exists p :: ToLower(Trim(value.value)) == Keyword(p))
    ensures value.Some? && !IsBlank(value.value) && r.Success? ==>
      ToLower(Trim(value.value)) == Keyword(r.value)
    ensures r.Failure? ==> value.Some? && r.error == UnsupportedProfile(value.value)
  {
    if value.None? || IsBlank(value.value) then Success(Smoke)
    else
      match Lookup(ToLower(Trim(value.value)))
      case Some(p) => Success(p)
      case None => Failure(UnsupportedProfile(value.value))
  }

  /** Any spelling whose lower-case form is a profile's keyword selects that
      profile, whatever the letter case. */
  lemma {:induction false} FromCaseInsensitive(s: string, p: Profile)
    requires ToLower(s) == Keyword(p)
    ensures From(Some(s)) == Success(p)
  {
    LowerLettersUnpadded(s);
    TrimUnpadded(s);
    assert !IsWhitespace(s[0]);
  }

  /** Round trip: the lower-cased enum name parses back to the constant. */
  lemma FromLowerName(p: Profile)
    ensures From(Some(ToLower(p.Name()))) == Success(p)
  {
    assert ToLower(p.Name()) == Keyword(p);
    FromCaseInsensitive(ToLower(p.Name()), p);
  }

  /** For non-blank text the outcome depends only on its normalised form. */
  lemma FromNonBlank(v: string)
    requires !IsBlank(v)
    ensures From(Some(v)).ToOption() == Lookup(ToLower(Trim(v)))
  {
  }

  /** Surrounding whitespace does not change the outcome, as long as
      trimming does not change whether the text is blank: the same profile
      is selected, or both fail (and then only the carried text differs). */
  lemma FromIgnoresPadding(s: string)
    requires IsBlank(Trim(s)) <==> IsBlank(s)
    ensures From(Some(s)).ToOption() == From(Some(Trim(s))).ToOption()
  {
    if !IsBlank(s) {
      TrimIdempotent(s);
      FromNonBlank(s);
      FromNonBlank(Trim(s));
    }
  }

  /** Text without low control characters always satisfies the condition
      of `FromIgnoresPadding`. */
  lemma FromIgnoresOrdinaryPadding(s: string)
    requires forall i :: 0 <= i < |s| && IsTrimmed(s[i]) ==> IsWhitespace(s[i])
    ensures From(Some(s)).ToOption() == From(Some(Trim(s))).ToOption()
  {
    TrimPreservesBlank(s);
    FromIgnoresPadding(s);
  }

  /** `isBlank` and `trim` disagree on NUL: "\0" is not blank, so it is
      rejected, yet it trims to the empty string, which selects SMOKE. */
  lemma FromNulIsNotPadding()
    ensures From(Some("\0")) == Failure(UnsupportedProfile("\0"))
    ensures From(Some(Trim("\0"))) == Success(Smoke)
  {
    assert !IsWhitespace('\0');
    TrimEmpty("\0");
  }
}
