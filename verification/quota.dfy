/**
 * Quota and throttling classifiers over an error value of unknown shape
 * (packages/core/dist/src/utils/quotaErrorDetection.js). Every classifier is a
 * substring test on the message found by a fixed dispatch: a plain string first,
 * then an object with a string `message`, then an object whose `error` object
 * carries a `message`.
 */
module QuotaErrorDetection {
  import opened Wrappers
  import opened Text

  /** The inner `error` object of an API error: it has a `message` and maybe a numeric `code`. */
  datatype InnerError = InnerError(message: string, code: Option<int>)

  /** `response.data` of a Gaxios-like error. */
  datatype GaxiosData =
    | NoData                                                 // absent or falsy
    | DataString(text: string)
    | DataObject(hasErrorKey: bool, errorMessage: Option<string>)  // `error?.message` when it is a string

  /** The fields of an object-shaped error that the classifiers look at. */
  datatype ErrorObject = ErrorObject(
    message: Option<string>,      // a `message` field holding a string
    status: Option<int>,
    code: Option<int>,
    inner: Option<InnerError>,    // an `error` field that is an object with `message`
    response: Option<GaxiosData>  // a truthy `response` field
  )

  /** Any value that may be thrown or passed as an error. */
  datatype ErrorValue =
    | StringValue(text: string)
    | ObjectValue(obj: ErrorObject)
    | OtherValue                  // null, undefined, numbers, booleans

  const PRO_QUOTA_PREFIX: string := "Quota exceeded for quota metric 'Gemini"
  const PRO_QUOTA_SUFFIX: string := "Pro Requests'"
  const GENERIC_QUOTA: string := "Quota exceeded for quota metric"

  predicate IsApiError(e: ErrorValue) {
    e.ObjectValue? && e.obj.inner.Some?
  }

  predicate IsStructuredError(e: ErrorValue) {
    e.ObjectValue? && e.obj.message.Some?
  }

  /** The message the string/structured/API dispatch inspects, or None when the value has none of those shapes. */
  function InspectedMessage(e: ErrorValue): (m: Option<string>)
    ensures m.Some? <==> e.StringValue? || IsStructuredError(e) || IsApiError(e)
    ensures e.StringValue? ==> m == Some(e.text)
    ensures IsStructuredError(e) ==> m == e.obj.message
    ensures !IsStructuredError(e) && IsApiError(e) ==> m == Some(e.obj.inner.value.message)
  {
    if e.StringValue? then Some(e.text)
    else if IsStructuredError(e) then e.obj.message
    else if IsApiError(e) then Some(e.obj.inner.value.message)
    else None
  }

  predicate CheckProMessage(message: string) {
    Contains(message, PRO_QUOTA_PREFIX) && Contains(message, PRO_QUOTA_SUFFIX)
  }

  predicate IsProQuotaExceededError(e: ErrorValue) {
    if e.StringValue? then CheckProMessage(e.text)
    else if IsStructuredError(e) then CheckProMessage(e.obj.message.value)
    else if IsApiError(e) then CheckProMessage(e.obj.inner.value.message)
    else if e.ObjectValue? && e.obj.response.Some? then
      match e.obj.response.value
      case NoData => false
      case DataString(text) => text != "" && CheckProMessage(text)
      case DataObject(hasErrorKey, errorMessage) => hasErrorKey && CheckProMessage(errorMessage.GetOr(""))
    else false
  }

  predicate IsGenericQuotaExceededError(e: ErrorValue) {
    if e.StringValue? then Contains(e.text, GENERIC_QUOTA)
    else if IsStructuredError(e) then Contains(e.obj.message.value, GENERIC_QUOTA)
    else if IsApiError(e) then Contains(e.obj.inner.value.message, GENERIC_QUOTA)
    else false
  }

  predicate CheckQwenQuotaMessage(message: string) {
    var lower := Lower(message);
    Contains(lower, "insufficient_quota")
    || Contains(lower, "free allocated quota exceeded")
    || (Contains(lower, "quota") && Contains(lower, "exceeded"))
  }

  predicate IsQwenQuotaExceededError(e: ErrorValue) {
    if e.StringValue? then CheckQwenQuotaMessage(e.text)
    else if IsStructuredError(e) then CheckQwenQuotaMessage(e.obj.message.value)
    else if IsApiError(e) then CheckQwenQuotaMessage(e.obj.inner.value.message)
    else false
  }

  predicate CheckThrottlingMessage(message: string) {
    var lower := Lower(message);
    Contains(lower, "throttling")
    || Contains(lower, "requests throttling triggered")
    || Contains(lower, "rate limit")
    || Contains(lower, "too many requests")
  }

  /** `error.status || error.code` for an object, undefined (None) otherwise. */
  function StatusCode(e: ErrorValue): (r: Option<int>)
    ensures !e.ObjectValue? ==> r.None?
    ensures e.ObjectValue? && e.obj.status.Some? && e.obj.status.value != 0 ==> r == e.obj.status
    ensures e.ObjectValue? && (e.obj.status.None? || e.obj.status == Some(0)) ==> r == e.obj.code
    ensures r.Some? ==> e.ObjectValue? && (r == e.obj.status || r == e.obj.code)
  {
    if e.ObjectValue? then
      if e.obj.status.Some? && e.obj.status.value != 0 then e.obj.status else e.obj.code
    else None
  }

  predicate IsQwenThrottlingError(e: ErrorValue) {
    var statusCode := StatusCode(e);
    if e.StringValue? then
      (statusCode == Some(429) && CheckThrottlingMessage(e.text)) || Contains(e.text, "throttling")
    else if IsStructuredError(e) then
      statusCode == Some(429) && CheckThrottlingMessage(e.obj.message.value)
    else if IsApiError(e) then
      e.obj.inner.value.code == Some(429) && CheckThrottlingMessage(e.obj.inner.value.message)
    else false
  }

  // ---------------------------------------------------------------------------
  // Properties

  /** The Pro classifier holds exactly when the inspected message carries both markers
      (for the three dispatched shapes). */
  lemma ProQuotaOnDispatchedShapes(e: ErrorValue)
    requires InspectedMessage(e).Some?
    ensures IsProQuotaExceededError(e) <==> CheckProMessage(InspectedMessage(e).value)
  {
  }

  /** An object with both a string `message` and an API `error` is judged by its `message`. */
  lemma StructuredTakesPrecedence(e: ErrorValue)
    requires IsStructuredError(e) && IsApiError(e)
    ensures IsGenericQuotaExceededError(e) <==> Contains(e.obj.message.value, GENERIC_QUOTA)
    ensures IsQwenQuotaExceededError(e) <==> CheckQwenQuotaMessage(e.obj.message.value)
    ensures IsProQuotaExceededError(e) <==> CheckProMessage(e.obj.message.value)
  {
  }

  lemma PrefixOfProMarker()
    ensures StartsWith(PRO_QUOTA_PREFIX, GENERIC_QUOTA)
  {
  }

  /** On a string, structured or API error, a Pro-quota error is a generic quota error. */
  lemma ProImpliesGeneric(e: ErrorValue)
    requires InspectedMessage(e).Some?
    requires IsProQuotaExceededError(e)
    ensures IsGenericQuotaExceededError(e)
  {
    var m := InspectedMessage(e).value;
    PrefixOfProMarker();
    PrefixContained(PRO_QUOTA_PREFIX, GENERIC_QUOTA);
    ContainsTrans(m, PRO_QUOTA_PREFIX, GENERIC_QUOTA);
  }

  /** A Gaxios-only error can be a Pro-quota error without being a generic one. */
  lemma GaxiosProIsNotGeneric()
    ensures var e := ObjectValue(ErrorObject(None, None, None, None,
              Some(DataString(PRO_QUOTA_PREFIX + " 2.5 " + PRO_QUOTA_SUFFIX))));
            IsProQuotaExceededError(e) && !IsGenericQuotaExceededError(e)
  {
    var text := PRO_QUOTA_PREFIX + " 2.5 " + PRO_QUOTA_SUFFIX;
    assert OccursAt(text, PRO_QUOTA_PREFIX, 0);
    assert OccursAt(text, PRO_QUOTA_SUFFIX, |PRO_QUOTA_PREFIX| + 5);
  }

  /** The generic marker mentions "exceeded" at offset 6. */
  lemma GenericMarkerExceeded()
    ensures Contains(GENERIC_QUOTA, "exceeded")
  {
    var p := "Quota exceeded";
    assert p == GENERIC_QUOTA[..14];
    assert p[6..] == "exceeded";
    assert OccursAt(GENERIC_QUOTA, "exceeded", 6);
  }

  /** The generic marker mentions "quota" in lower case at offset 19. */
  lemma GenericMarkerQuota()
    ensures Contains(GENERIC_QUOTA, "quota")
  {
    var p := "Quota exceeded for quota";
    assert p == GENERIC_QUOTA[..24];
    assert p[19..] == "quota";
    assert OccursAt(GENERIC_QUOTA, "quota", 19);
  }

  lemma GenericMessageIsQwen(m: string)
    requires Contains(m, GENERIC_QUOTA)
    ensures CheckQwenQuotaMessage(m)
  {
    GenericMarkerQuota();
    GenericMarkerExceeded();
    ContainsTrans(m, GENERIC_QUOTA, "quota");
    ContainsTrans(m, GENERIC_QUOTA, "exceeded");
    ContainsLower(m, "quota");
    ContainsLower(m, "exceeded");
    LowerOfLowercase("quota");
    LowerOfLowercase("exceeded");
    assert Contains(Lower(m), "quota") && Contains(Lower(m), "exceeded");
  }

  /** On a string, structured or API error, a generic quota error is a Qwen quota error. */
  lemma GenericImpliesQwen(e: ErrorValue)
    requires IsGenericQuotaExceededError(e)
    ensures IsQwenQuotaExceededError(e)
  {
    GenericMessageIsQwen(InspectedMessage(e).value);
  }

  /** The Qwen quota test is insufficient_quota, or quota together with exceeded:
      the "free allocated quota exceeded" alternative adds nothing. */
  lemma QwenQuotaSimplified(message: string)
    ensures var lower := Lower(message);
      CheckQwenQuotaMessage(message) <==>
        Contains(lower, "insufficient_quota") || (Contains(lower, "quota") && Contains(lower, "exceeded"))
  {
    var lower := Lower(message);
    var phrase := "free allocated quota exceeded";
    if Contains(lower, phrase) {
      assert OccursAt(phrase, "quota", 15);
      assert OccursAt(phrase, "exceeded", 21);
      ContainsTrans(lower, phrase, "quota");
      ContainsTrans(lower, phrase, "exceeded");
    }
  }

  /** The Qwen quota test ignores letter case. */
  lemma QwenQuotaCaseInsensitive(message: string)
    ensures CheckQwenQuotaMessage(message) == CheckQwenQuotaMessage(Lower(message))
  {
    LowerIdempotent(message);
  }

  /** "insufficient_quota" is already lower case and is the first alternative. */
  lemma InsufficientQuotaExample()
    ensures IsQwenQuotaExceededError(StringValue("insufficient_quota"))
  {
    var m := "insufficient_quota";
    LowerOfLowercase(m);
    assert OccursAt(Lower(m), m, 0);
  }

  /** "Free allocated QUOTA EXCEEDED" holds the upper-case words QUOTA and EXCEEDED. */
  /** A message that holds QUOTA and EXCEEDED in capitals passes the Qwen quota test. */
  lemma UpperQuotaExceeded(m: string)
    requires Contains(m, "QUOTA") && Contains(m, "EXCEEDED")
    ensures CheckQwenQuotaMessage(m)
  {
    ContainsLower(m, "QUOTA");
    ContainsLower(m, "EXCEEDED");
    assert Lower("QUOTA") == "quota";
    assert Lower("EXCEEDED") == "exceeded";
  }

  lemma FreeAllocatedExample()
    ensures IsQwenQuotaExceededError(StringValue("Free allocated QUOTA EXCEEDED"))
  {
    var m := "Free allocated QUOTA EXCEEDED";
    var p := "Free allocated QUOTA";
    assert p == m[..20];
    assert p[15..] == "QUOTA";
    assert OccursAt(m, "QUOTA", 15);
    assert m[21..] == "EXCEEDED";
    assert OccursAt(m, "EXCEEDED", 21);
    UpperQuotaExceeded(m);
  }

  /** On a plain string the status is undefined, so only a case-sensitive "throttling" counts. */
  lemma ThrottlingOnString(s: string)
    ensures IsQwenThrottlingError(StringValue(s)) <==> Contains(s, "throttling")
  {
  }

  /** Structured errors need status (or code) 429 and a throttling keyword. */
  lemma ThrottlingOnStructured(e: ErrorValue)
    requires IsStructuredError(e)
    ensures IsQwenThrottlingError(e) <==> StatusCode(e) == Some(429) && CheckThrottlingMessage(e.obj.message.value)
  {
  }

  lemma ThrottlingExample()
    ensures IsQwenThrottlingError(ObjectValue(ErrorObject(Some("rate limit"), Some(429), None, None, None)))
    ensures !IsQwenThrottlingError(ObjectValue(ErrorObject(Some("rate limit"), Some(500), None, None, None)))
  {
    assert Lower("rate limit") == "rate limit";
    assert OccursAt("rate limit", "rate limit", 0);
  }

  lemma ProQuotaExample()
    ensures IsProQuotaExceededError(StringValue("Quota exceeded for quota metric 'Gemini 2.5 Pro Requests'"))
  {
    var s := "Quota exceeded for quota metric 'Gemini 2.5 Pro Requests'";
    assert OccursAt(s, PRO_QUOTA_PREFIX, 0);
    assert OccursAt(s, PRO_QUOTA_SUFFIX, |s| - |PRO_QUOTA_SUFFIX|);
  }

  /** A value of none of the recognised shapes is classified as nothing. */
  lemma UnrecognisedIsNothing(e: ErrorValue)
    requires InspectedMessage(e).None?
    requires !(e.ObjectValue? && e.obj.response.Some?)
    ensures !IsProQuotaExceededError(e) && !IsGenericQuotaExceededError(e)
    ensures !IsQwenQuotaExceededError(e) && !IsQwenThrottlingError(e)
  {
  }
}
