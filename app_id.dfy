// AppId: an application identifier, validated against ^[a-zA-Z][a-zA-Z0-9_-]{2,31}$.
module AppIds {
  import opened Wrappers
  import Text

  datatype AppId = AppId(value: string)

  const InvalidAppIdMessage: string := "无效的应用ID格式，必须以字母开头，长度3-32位，可包含字母、数字、下划线或连字符"

  /** The id pattern: one letter, then 2 to 31 characters of [a-zA-Z0-9_-]. */
  predicate MatchesAppIdPattern(s: string)
  {
    |s| > 0 && Text.IsAsciiLetter(s[0]) && Text.MatchRepeat(s[1..], Text.IsWordOrDash, 2, 31)
  }

  /** A valid id in plain terms: 3 to 32 characters, a letter first, the rest from [a-zA-Z0-9_-]. */
  predicate ValidAppId(s: string)
  {
    3 <= |s| <= 32 && Text.IsAsciiLetter(s[0]) && forall i :: 1 <= i < |s| ==> Text.IsWordOrDash(s[i])
  }

  lemma PatternIsValidAppId(s: string)
    ensures MatchesAppIdPattern(s) <==> ValidAppId(s)
  {
    if |s| > 0 {
      Text.MatchRepeatMeaning(s[1..], Text.IsWordOrDash, 2, 31);
      assert (forall i :: 0 <= i < |s[1..]| ==> Text.IsWordOrDash(s[1..][i]))
         <==> forall i :: 1 <= i < |s| ==> Text.IsWordOrDash(s[i]);
    }
  }

  /** The constructor: a null or non-matching value raises AppException, modelled as Err. */
  function NewAppId(value: Option<string>): (r: Result<AppId, string>)
    ensures r.Ok? <==> value.Some? && ValidAppId(value.value)
    ensures r.Ok? ==> r.value.value == value.value
  {
    if value.None? then Err(InvalidAppIdMessage)
    else
      PatternIsValidAppId(value.value);
      if !MatchesAppIdPattern(value.value) then Err(InvalidAppIdMessage)
      else Ok(AppId(value.value))
  }

  /** getValue() and toString() both give the validated string back. */
  function ToString(id: AppId): string
  {
    id.value
  }

  lemma ToStringRoundTrip(v: Option<string>)
    requires NewAppId(v).Ok?
    ensures ToString(NewAppId(v).value) == v.value
    ensures NewAppId(Some(ToString(NewAppId(v).value))) == NewAppId(v)
  {
  }

  /**
   * A valid id has no colon, so every "appId:endpointId" key (buffers, metrics, rate-limit
   * and authorization caches) names exactly one (app, endpoint) pair.
   */
  lemma {:induction false} KeyOfValidAppIdInjective(a1: AppId, e1: string, a2: AppId, e2: string)
    requires ValidAppId(a1.value) && ValidAppId(a2.value)
    requires Text.Join(a1.value, e1) == Text.Join(a2.value, e2)
    ensures a1 == a2 && e1 == e2
  {
    assert ':' !in a1.value by {
      forall i | 0 <= i < |a1.value| ensures a1.value[i] != ':' {
        if i > 0 { assert Text.IsWordOrDash(a1.value[i]); }
      }
    }
    assert ':' !in a2.value by {
      forall i | 0 <= i < |a2.value| ensures a2.value[i] != ':' {
        if i > 0 { assert Text.IsWordOrDash(a2.value[i]); }
      }
    }
    Text.JoinInjective(a1.value, e1, a2.value, e2);
  }
}
