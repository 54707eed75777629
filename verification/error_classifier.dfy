/**
 * `handleAPIError`: turns whatever an upstream call threw into one
 * message tagged with the service name, and the parser that reads an
 * HTTP-error message back into its status and detail.
 */
module ErrorClassifier {
  import opened Options
  import opened JsValue
  import Decimal

  /** What the `catch` around an upstream call can hold. */
  datatype Failure =
      /** An axios error: the response's status and body (`Undefined` when no response arrived) and the error's own message. */
    | HttpError(status: Option<int>, data: Value, message: string)
      /** Any other `Error` instance. */
    | PlainError(message: string)
      /** A thrown value that is not an `Error`. */
    | Unknown

  /** The head of every classified message. */
  function Prefix(service: string): string {
    service + " API error: "
  }

  const UnknownError: string := "Unknown error"
  const UnknownStatus: string := "unknown status"
  const UnknownOccurred: string := "Unknown error occurred"

  /** `response?.status ?? "unknown status"`, as a template literal prints it. */
  function StatusText(status: Option<int>): string {
    match status
    case Some(n) => Decimal.IntToString(n)
    case None => UnknownStatus
  }

  /** The body holds an `error` object with a `message` key, whose value line 183 converts with `String(...)`. */
  predicate ReadsMessageField(data: Value) {
    && data.Obj? && "error" in data.fields
    && data.fields["error"].Obj? && "message" in data.fields["error"].fields
  }

  function MessageField(data: Value): Value
    requires ReadsMessageField(data)
  {
    data.fields["error"].fields["message"]
  }

  /** `handleAPIError` itself throws: the `message` value it converts cannot be printed. */
  predicate ClassifyThrows(failure: Failure) {
    failure.HttpError? && ReadsMessageField(failure.data) && !Printable(MessageField(failure.data))
  }

  /**
   * The detail read from an HTTP error body: `String(error.message)` when
   * `error` is an object that has a `message` key (whatever its value),
   * `error` itself when it is a non-empty string, `"Unknown error"` otherwise.
   * `None` when `String(...)` throws.
   */
  function BodyDetail(data: Value): (r: Option<string>)
    ensures r.None? <==> ReadsMessageField(data) && !Printable(MessageField(data))
  {
    if Truthy(data) && TypeOf(data) == "object" && HasKey(data, "error") then
      var errorObj := Get(data, "error");
      if Truthy(errorObj) && TypeOf(errorObj) == "object" && HasKey(errorObj, "message") then
        ToJsString(Get(errorObj, "message"))
      else if Truthy(errorObj) && TypeOf(errorObj) == "string" then
        Some(errorObj.s)
      else
        Some(UnknownError)
    else
      Some(UnknownError)
  }

  /** `errorDetail || axiosError.message || "Unknown error"`, once the body detail has been read. */
  function HttpDetail(data: Value, message: string): (r: Option<string>)
    ensures r.None? <==> BodyDetail(data).None?
    ensures r.Some? ==> r.value != ""
  {
    match BodyDetail(data)
    case None => None
    case Some(detail) => Some(if detail != "" then detail else if message != "" then message else UnknownError)
  }

  /** `handleAPIError(error, service)`, or `None` when it throws. */
  function Classify(failure: Failure, service: string): (r: Option<string>)
    ensures r.None? <==> ClassifyThrows(failure)
    ensures r.Some? ==> Prefix(service) <= r.value
    ensures r.Some? && failure.HttpError? ==> |r.value| > |Prefix(service)|
  {
    match failure
    case HttpError(status, data, message) =>
      (match HttpDetail(data, message)
       case None => None
       case Some(detail) => Some(Prefix(service) + StatusText(status) + " - " + detail))
    case PlainError(message) => Some(Prefix(service) + message)
    case Unknown => Some(Prefix(service) + UnknownOccurred)
  }

  /** A failure that is neither an axios error nor an `Error` yields the fixed fallback message. */
  lemma ClassifyUnknown(service: string)
    ensures Classify(Unknown, service) == Some(service + " API error: Unknown error occurred")
  {
    assert service + " API error: " + UnknownOccurred == service + " API error: Unknown error occurred";
  }

  /** A plain `Error` is reported by its message alone. */
  lemma ClassifyPlainError(message: string, service: string)
    ensures Classify(PlainError(message), service) == Some(service + " API error: " + message)
  {
  }

  /**
   * A body shaped `{error: {message: m}}` with non-empty string `m` supplies
   * `m` as the detail; a missing status prints as `unknown status`.
   */
  lemma DetailFromErrorMessage(status: Option<int>, data: Value, message: string, m: string, service: string)
    requires ReadsMessageField(data) && MessageField(data) == Str(m) && m != ""
    ensures Classify(HttpError(status, data, message), service)
         == Some(service + " API error: " + StatusText(status) + " - " + m)
    ensures status.None? ==>
              (Classify(HttpError(status, data, message), service)
               == Some(service + " API error: unknown status - " + m))
  {
    assert HttpDetail(data, message) == Some(m);
    if status.None? {
      assert service + " API error: " + StatusText(status) + " - " + m
          == service + " API error: unknown status - " + m;
    }
  }

  /**
   * `"message" in errorObj` holds whatever the value is: the value is
   * printed with `String(...)`, which throws for an object with an own
   * `toString` key; a value that prints empty falls through to the axios
   * error's own message.
   */
  lemma DetailFromAnyMessageValue(data: Value, message: string)
    requires ReadsMessageField(data)
    ensures !Printable(MessageField(data)) ==> HttpDetail(data, message) == None
    ensures Printable(MessageField(data)) && !PrintsEmpty(MessageField(data)) ==>
              HttpDetail(data, message) == ToJsString(MessageField(data))
    ensures PrintsEmpty(MessageField(data)) && message != "" ==> HttpDetail(data, message) == Some(message)
    ensures PrintsEmpty(MessageField(data)) && message == "" ==> HttpDetail(data, message) == Some("Unknown error")
  {
    PrintsEmptyExactly(MessageField(data));
  }

  /** An upstream error body `{"error": {"message": {"toString": 1}}}` makes the classifier throw. */
  lemma UnprintableMessageThrows(status: Option<int>, message: string, service: string)
    ensures Classify(HttpError(status, Obj(map["error" := Obj(map["message" := Obj(map["toString" := Num(1)])])]), message),
                     service) == None
  {
  }

  /** A body shaped `{error: s}` with non-empty string `s` supplies `s`. */
  lemma DetailFromErrorString(data: Value, message: string, s: string)
    requires data.Obj? && "error" in data.fields && data.fields["error"] == Str(s) && s != ""
    ensures HttpDetail(data, message) == Some(s)
  {
  }

  /** An `error` field the route can use: an object with a `message` key, or a non-empty string. */
  predicate UsableErrorField(data: Value) {
    || ReadsMessageField(data)
    || (data.Obj? && "error" in data.fields && data.fields["error"].Str? && data.fields["error"].s != "")
  }

  /** Without a usable `error` field the detail is the literal `Unknown error`, whatever the axios message says. */
  lemma DetailWithoutUsableError(data: Value, message: string)
    requires !UsableErrorField(data)
    ensures BodyDetail(data) == Some("Unknown error")
    ensures HttpDetail(data, message) == Some("Unknown error")
  {
  }

  /** Space-dash-space cannot start inside `a`, even when followed by a separator. */
  predicate SeparatorFree(a: string) {
    forall j :: 0 <= j < |a| && a[j] == ' ' ==> j + 1 < |a| && a[j + 1] != '-'
  }

  /** Splits `s` at its first `" - "`. */
  function SplitAtSeparator(s: string): Option<(string, string)>
    decreases |s|
  {
    if |s| < 3 then None
    else if s[..3] == " - " then Some(("", s[3..]))
    else
      match SplitAtSeparator(s[1..])
      case None => None
      case Some(parts) => Some(([s[0]] + parts.0, parts.1))
  }

  lemma {:induction false} SplitAtFirstSeparator(a: string, b: string)
    requires SeparatorFree(a)
    ensures SplitAtSeparator(a + " - " + b) == Some((a, b))
    decreases |a|
  {
    var s := a + " - " + b;
    if |a| == 0 {
      assert s[..3] == " - " && s[3..] == b;
    } else {
      assert s[0] == a[0];
      if a[0] == ' ' {
        assert s[1] == a[1] != '-';
      }
      assert s[..3] != " - ";
      assert SeparatorFree(a[1..]) by {
        forall j | 0 <= j < |a[1..]| && a[1..][j] == ' '
          ensures j + 1 < |a[1..]| && a[1..][j + 1] != '-'
        {
          assert a[j + 1] == ' ';
        }
      }
      SplitAtFirstSeparator(a[1..], b);
      assert s[1..] == a[1..] + " - " + b;
      assert [a[0]] + a[1..] == a;
    }
  }

  /** Reads a status printed by `StatusText` back. */
  function ParseStatus(t: string): Option<Option<int>> {
    if t == UnknownStatus then Some(None)
    else
      match Decimal.ParseInt(t)
      case Some(n) => Some(Some(n))
      case None => None
  }

  lemma StatusTextRoundTrip(status: Option<int>)
    ensures SeparatorFree(StatusText(status))
    ensures ParseStatus(StatusText(status)) == Some(status)
  {
    match status
    case Some(n) =>
      var t := Decimal.IntToString(n);
      assert t != UnknownStatus by {
        assert UnknownStatus[|UnknownStatus| - 1] == 's';
      }
      Decimal.ParseIntToString(n);
    case None =>
      var t := UnknownStatus;
      assert forall j :: 0 <= j < |t| && t[j] == ' ' ==> j == 7;
  }

  /** Recovers the status and the detail from a classified HTTP-error message. */
  function ParseHttpFailure(service: string, msg: string): Option<(Option<int>, string)> {
    var prefix := Prefix(service);
    if prefix <= msg then
      match SplitAtSeparator(msg[|prefix|..])
      case None => None
      case Some(parts) =>
        match ParseStatus(parts.0)
        case None => None
        case Some(status) => Some((status, parts.1))
    else
      None
  }

  /**
   * An HTTP-error message is `<prefix><status> - <detail>` with a non-empty
   * detail, and the status and detail can be read back from it unambiguously.
   */
  lemma ClassifyHttpRoundTrip(status: Option<int>, data: Value, message: string, service: string)
    ensures HttpDetail(data, message).Some? ==>
              && HttpDetail(data, message).value != ""
              && Classify(HttpError(status, data, message), service).Some?
              && ParseHttpFailure(service, Classify(HttpError(status, data, message), service).value)
                 == Some((status, HttpDetail(data, message).value))
  {
    if HttpDetail(data, message).Some? {
      var msg := Classify(HttpError(status, data, message), service).value;
      var prefix := Prefix(service);
      var st := StatusText(status);
      var detail := HttpDetail(data, message).value;
      var rest := st + " - " + detail;
      assert msg == prefix + rest;
      assert msg[|prefix|..] == rest;
      StatusTextRoundTrip(status);
      SplitAtFirstSeparator(st, detail);
      assert SplitAtSeparator(msg[|prefix|..]) == Some((st, detail));
      assert ParseStatus(st) == Some(status);
    }
  }
}
