// AccessKey: the credential an application presents, validated against ^[a-zA-Z0-9_-]{16,64}$.
module AccessKeys {
  import opened Wrappers
  import Text

  datatype AccessKey = AccessKey(value: string)

  const InvalidKeyMessage: string := "无效的访问密钥格式，必须为16-64位的字母、数字、下划线或连字符"

  /** The key pattern, with the regular expression's own semantics. */
  predicate MatchesKeyPattern(s: string)
  {
    Text.MatchRepeat(s, Text.IsWordOrDash, 16, 64)
  }

  /**
   * The constructor: a null or non-matching value raises AppException, modelled as Err.
   * A key is accepted exactly when it has 16 to 64 characters, all letters, digits, '_' or '-'.
   */
  function NewAccessKey(value: Option<string>): (r: Result<AccessKey, string>)
    ensures r.Ok? <==> value.Some? && 16 <= |value.value| <= 64
                       && forall i :: 0 <= i < |value.value| ==> Text.IsWordOrDash(value.value[i])
    ensures r.Ok? ==> r.value.value == value.value
    ensures r.Err? ==> r.error == InvalidKeyMessage
  {
    if value.None? then Err(InvalidKeyMessage)
    else
      Text.MatchRepeatMeaning(value.value, Text.IsWordOrDash, 16, 64);
      if !MatchesKeyPattern(value.value) then Err(InvalidKeyMessage)
      else Ok(AccessKey(value.value))
  }

  /** getMaskedValue: up to 8 characters are shown as is, longer keys as first 4 + "****" + last 4. */
  function Masked(s: string): string
  {
    if |s| <= 8 then s else s[..4] + "****" + s[|s| - 4..]
  }

  /** toString() is the masked value. */
  function ToString(k: AccessKey): string
  {
    Masked(k.value)
  }

  /**
   * A key short enough is shown unchanged; a longer one is shown as 12 characters that keep
   * its first and last four and hide the rest.
   */
  lemma MaskedShape(s: string)
    ensures |s| <= 8 ==> Masked(s) == s
    ensures |s| > 8 ==> |Masked(s)| == 12 && Masked(s)[..4] == s[..4]
                        && Masked(s)[4..8] == "****" && Masked(s)[8..] == s[|s| - 4..]
  {
  }

  /** A key that passed validation never appears in full in its string form. */
  lemma {:induction false} ValidKeyNeverPrintedInFull(v: Option<string>)
    requires NewAccessKey(v).Ok?
    ensures ToString(NewAccessKey(v).value) != NewAccessKey(v).value.value
    ensures |ToString(NewAccessKey(v).value)| == 12
  {
    var s := v.value;
    assert |s| >= 16;
    assert |Masked(s)| == 12;
  }
}
