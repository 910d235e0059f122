/** Errors the macOS app raises for gateway calls: a structured error for a
    `{ ok: false }` response, whose code and message are defaulted when they
    are missing or blank, and an error for a response that could not be
    decoded.  Both describe themselves as `method: …`. */
module GatewayErrors {
  import opened Wrappers
  import opened Strings
  import opened JsonValue

  const DefaultCode: string := "GATEWAY_ERROR"
  const DefaultMessage: string := "gateway error"

  datatype GatewayResponseError = GatewayResponseError(
    methodName: string,
    code: string,
    message: string,
    details: map<string, Json>)

  /** A present, non-blank value trimmed; otherwise `fallback`. */
  function TrimmedOr(raw: Option<string>, fallback: string): (r: string)
    ensures raw.Some? && !IsBlank(raw.value) ==> r == Trim(raw.value)
    ensures raw.None? || IsBlank(raw.value) ==> r == fallback
  {
    if raw.Some? && Trim(raw.value) != [] then Trim(raw.value) else fallback
  }

  /** `GatewayResponseError.init`: the code falls back to `GATEWAY_ERROR` and
      the message to `gateway error` when missing or blank; missing details
      become an empty map.  Neither code nor message is ever blank. */
  function NewGatewayResponseError(
    methodName: string,
    code: Option<string>,
    message: Option<string>,
    details: Option<map<string, Json>>): (e: GatewayResponseError)
    ensures e.methodName == methodName
    ensures code.Some? && !IsBlank(code.value) ==> e.code == Trim(code.value)
    ensures code.None? || IsBlank(code.value) ==> e.code == DefaultCode
    ensures message.Some? && !IsBlank(message.value) ==> e.message == Trim(message.value)
    ensures message.None? || IsBlank(message.value) ==> e.message == DefaultMessage
    ensures !IsBlank(e.code) && !IsBlank(e.message)
    ensures details.None? ==> e.details == map[]
    ensures details.Some? ==> e.details == details.value
  {
    assert !IsBlank(DefaultCode) by { assert !IsWhitespace(DefaultCode[0]); }
    assert !IsBlank(DefaultMessage) by { assert !IsWhitespace(DefaultMessage[0]); }
    GatewayResponseError(methodName, TrimmedOr(code, DefaultCode), TrimmedOr(message, DefaultMessage),
                         details.GetOr(map[]))
  }

  /** `errorDescription`: `method: message` for the default code,
      `method: [code] message` for any other. */
  function ResponseErrorDescription(e: GatewayResponseError): (d: string)
    ensures StartsWith(d, e.methodName + ": ") && EndsWith(d, e.message)
    ensures e.code == DefaultCode ==> |d| == |e.methodName| + 2 + |e.message|
    ensures e.code != DefaultCode ==> |e.methodName| + 4 + |e.code| <= |d|
    ensures e.code != DefaultCode ==> d[|e.methodName| + 2..|e.methodName| + 4 + |e.code|] == "[" + e.code + "]"
    ensures e.code != DefaultCode ==> |d| == |e.methodName| + 5 + |e.code| + |e.message|
    ensures e.code != DefaultCode ==> d[|e.methodName| + 4 + |e.code|] == ' '
  {
    var d := if e.code == DefaultCode then e.methodName + ": " + e.message
             else e.methodName + ": [" + e.code + "] " + e.message;
    assert d[..|e.methodName + ": "|] == e.methodName + ": ";
    d
  }

  /** An explicit `GATEWAY_ERROR` code reads exactly like a missing one. */
  lemma ExplicitDefaultCodeIsHidden(methodName: string, message: Option<string>, details: Option<map<string, Json>>)
    ensures ResponseErrorDescription(NewGatewayResponseError(methodName, Some(DefaultCode), message, details))
         == ResponseErrorDescription(NewGatewayResponseError(methodName, None, message, details))
  {
    assert !IsBlank(DefaultCode) by { assert !IsWhitespace(DefaultCode[0]); }
    TrimOfTrimmed(DefaultCode);
  }

  /** Any other code shows up in brackets, so two errors that differ only in
      their (non-default) codes are described differently. */
  lemma NonDefaultCodesAreDistinguished(e1: GatewayResponseError, e2: GatewayResponseError)
    requires e1.methodName == e2.methodName && e1.message == e2.message
    requires e1.code != DefaultCode && e2.code != DefaultCode && e1.code != e2.code
    ensures ResponseErrorDescription(e1) != ResponseErrorDescription(e2)
  {
    var d1 := ResponseErrorDescription(e1);
    var d2 := ResponseErrorDescription(e2);
    assert d1 == e1.methodName + ": [" + e1.code + "] " + e1.message;
    assert d2 == e2.methodName + ": [" + e2.code + "] " + e2.message;
    var n := |e1.methodName| + 3;
    if |e1.code| == |e2.code| {
      assert d1[n..n + |e1.code|] == e1.code;
      assert d2[n..n + |e1.code|] == e2.code;
    } else {
      assert |d1| != |d2|;
    }
  }

  datatype GatewayDecodingError = GatewayDecodingError(methodName: string, message: string)

  /** `GatewayDecodingError.errorDescription`: always `method: message`. */
  function DecodingErrorDescription(e: GatewayDecodingError): (d: string)
    ensures StartsWith(d, e.methodName + ": ") && |d| == |e.methodName| + 2 + |e.message|
    ensures d[|e.methodName| + 2..] == e.message
  {
    e.methodName + ": " + e.message
  }

  /** A decoding error reads like a response error that carries the default
      code and the same (already trimmed, non-blank) message. */
  lemma DecodingErrorReadsLikeDefaultResponse(methodName: string, message: string)
    requires Trim(message) == message && message != ""
    ensures DecodingErrorDescription(GatewayDecodingError(methodName, message))
         == ResponseErrorDescription(NewGatewayResponseError(methodName, None, Some(message), None))
  {
  }
}
