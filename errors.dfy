/**
 * The error taxonomy of exceptions.py: JiraAPIError with its message, optional
 * status code and response data, the six subclasses that fix their status
 * code (status meanings as in section 15 of RFC 9110; 429 from section 4 of
 * RFC 6585), their `__str__`, and the separate SDKError of the SDK client.
 */
module Errors {
  import opened Wrappers
  import opened Text
  import opened Json

  /** The six JiraAPIError subclasses, each of which fixes its status code. */
  datatype ErrorKind = Authentication | Permission | NotFound | Validation | RateLimit | Server

  /** A JiraAPIError instance; `kind` is None for an instance of the base class. */
  datatype JiraError = JiraError(kind: Option<ErrorKind>, message: string, statusCode: Option<int>, responseData: Json)

  /** A SDKError instance. It is a type of its own: no SDKError is a JiraAPIError.
      Its message is JSON because the SDK copies the server's `detail` value,
      which FastAPI sends as a list for request-validation errors. */
  datatype SdkError = SdkError(message: Json, statusCode: Option<int>, responseData: Json)

  /** What an operation of the model can raise: a JiraAPIError, the ValueError
      the services raise for failed name lookups, or the Python TypeError /
      AttributeError / KeyError that wrongly shaped JSON provokes. */
  datatype Failure = Api(error: JiraError) | ValueError(message: string) | Malformed(what: string)

  function FixedStatus(k: ErrorKind): int {
    match k
    case Authentication => 401
    case Permission => 403
    case NotFound => 404
    case Validation => 400
    case RateLimit => 429
    case Server => 500
  }

  /** The message each subclass uses when constructed without one. */
  function DefaultMessage(k: ErrorKind): string {
    match k
    case Authentication => "Authentication failed"
    case Permission => "Permission denied"
    case NotFound => "Resource not found"
    case Validation => "Validation failed"
    case RateLimit => "Rate limit exceeded"
    case Server => "Internal server error"
  }

  /** `JiraAPIError(message, status_code, response_data)`: the message and code
      are stored unchanged; `response_data or {}` replaces None (and any other
      falsy value) by the empty object. */
  function NewJiraError(message: string, statusCode: Option<int>, responseData: Option<Json>): (e: JiraError)
    ensures e.kind == None && e.message == message && e.statusCode == statusCode
    ensures responseData.None? ==> e.responseData == EmptyObject
    ensures responseData.Some? && Truthy(responseData.value) ==> e.responseData == responseData.value
    ensures Truthy(e.responseData) || e.responseData == EmptyObject
  {
    JiraError(None, message, statusCode,
              if responseData.Some? && Truthy(responseData.value) then responseData.value else EmptyObject)
  }

  /** A subclass instance: whatever the message, the status is the subclass's
      own and the response data is empty (the subclasses never pass any). */
  function Typed(k: ErrorKind, message: string): (e: JiraError)
    ensures e.kind == Some(k) && e.message == message
    ensures e.statusCode == Some(FixedStatus(k)) && e.responseData == EmptyObject
  {
    JiraError(Some(k), message, Some(FixedStatus(k)), EmptyObject)
  }

  /** The fixed codes are pairwise distinct, all are client or server error
      codes, and only the server error is a 5xx code. */
  lemma FixedStatusFacts(k1: ErrorKind, k2: ErrorKind)
    ensures k1 != k2 ==> FixedStatus(k1) != FixedStatus(k2)
    ensures 400 <= FixedStatus(k1) <= 599
    ensures FixedStatus(k1) >= 500 <==> k1 == Server
  {
  }

  /** Python truthiness of an Optional[int] status code: None and 0 are false. */
  predicate HasCode(statusCode: Option<int>) {
    statusCode.Some? && statusCode.value != 0
  }

  /** The shared shape of both `__str__` methods. */
  function Render(prefix: string, statusCode: Option<int>, message: string): string {
    if HasCode(statusCode) then prefix + " (" + IntToString(statusCode.value) + "): " + message
    else prefix + ": " + message
  }

  function JiraErrorString(e: JiraError): string {
    Render("JIRA API Error", e.statusCode, e.message)
  }

  /** `SDKError(message, status_code, response_data)`. */
  function NewSdkError(message: Json, statusCode: Option<int>, responseData: Option<Json>): (e: SdkError)
    ensures e.message == message && e.statusCode == statusCode
    ensures responseData.None? ==> e.responseData == EmptyObject
    ensures responseData.Some? && Truthy(responseData.value) ==> e.responseData == responseData.value
    ensures Truthy(e.responseData) || e.responseData == EmptyObject
  {
    SdkError(message, statusCode,
             if responseData.Some? && Truthy(responseData.value) then responseData.value else EmptyObject)
  }

  /** The body of Python's `repr` of a string in single quotes: a backslash
      or a single quote is preceded by a backslash. */
  function Escaped(s: string): (r: string)
    ensures |r| >= |s|
    ensures '\'' !in s && '\\' !in s ==> r == s
  {
    if s == [] then []
    else (if s[0] == '\\' || s[0] == '\'' then ['\\', s[0]] else [s[0]]) + Escaped(s[1..])
  }

  /** Python's `repr` of a value that `json.loads` produced. */
  function Repr(j: Json): string
    decreases j
  {
    match j
    case JNull => "None"
    case JBool(b) => if b then "True" else "False"
    case JInt(i) => IntToString(i)
    case JStr(s) => "'" + Escaped(s) + "'"
    case JArr(items) => "[" + Join(", ", seq(|items|, k requires 0 <= k < |items| => Repr(items[k]))) + "]"
    case JObj(fields) =>
      "{" + Join(", ", seq(|fields|, k requires 0 <= k < |fields| =>
                             "'" + Escaped(fields[k].0) + "': " + Repr(fields[k].1))) + "}"
  }

  /** Python's `str` of such a value: a string is itself, anything else is
      its `repr`. */
  function PyStr(j: Json): string {
    if j.JStr? then j.s else Repr(j)
  }

  /** `SDKError.__str__`: the message is shown as `str(message)`, so the list
      of a request-validation error appears between brackets. */
  function SdkErrorString(e: SdkError): string {
    Render("SDK Error", e.statusCode, PyStr(e.message))
  }

  lemma SplitAtFirstClose(d1: string, x1: string, d2: string, x2: string)
    requires ')' !in d1 && ')' !in d2
    requires d1 + x1 == d2 + x2
    requires |x1| > 0 && x1[0] == ')' && |x2| > 0 && x2[0] == ')'
    ensures d1 == d2 && x1 == x2
  {
    var s := d1 + x1;
    assert s[|d1|] == ')' && s[|d2|] == ')';
    assert forall k :: 0 <= k < |d1| ==> s[k] == d1[k];
    assert forall k :: 0 <= k < |d2| ==> s[k] == d2[k];
    assert |d1| == |d2|;
    assert d1 == s[..|d1|] && d2 == s[..|d2|];
    assert x1 == s[|d1|..] && x2 == s[|d2|..];
  }

  lemma NoCloseInIntToString(i: int)
    ensures ')' !in IntToString(i)
  {
  }

  /** The character right after the prefix tells whether a code was shown. */
  lemma RenderMarker(prefix: string, s: Option<int>, m: string)
    ensures |Render(prefix, s, m)| > |prefix|
    ensures Render(prefix, s, m)[|prefix|] == if HasCode(s) then ' ' else ':'
  {
  }

  lemma RenderedCodeAndMessage(prefix: string, c1: int, m1: string, c2: int, m2: string)
    requires prefix + " (" + IntToString(c1) + "): " + m1 == prefix + " (" + IntToString(c2) + "): " + m2
    ensures c1 == c2 && m1 == m2
  {
    var d1, d2 := IntToString(c1), IntToString(c2);
    var r := prefix + " (" + d1 + "): " + m1;
    var n := |prefix|;
    NoCloseInIntToString(c1);
    NoCloseInIntToString(c2);
    assert r == prefix + " (" + (d1 + ("): " + m1));
    assert r == prefix + " (" + (d2 + ("): " + m2));
    assert r[n + 2..] == d1 + ("): " + m1) == d2 + ("): " + m2);
    SplitAtFirstClose(d1, "): " + m1, d2, "): " + m2);
    assert m1 == ("): " + m1)[3..] && m2 == ("): " + m2)[3..];
    IntToStringInjective(c1, c2);
  }

  /** The rendered text determines the message and whether a code was shown,
      and when one was shown, the code itself. */
  lemma RenderInjective(prefix: string, s1: Option<int>, m1: string, s2: Option<int>, m2: string)
    requires Render(prefix, s1, m1) == Render(prefix, s2, m2)
    ensures HasCode(s1) == HasCode(s2) && m1 == m2
    ensures HasCode(s1) ==> s1 == s2
  {
    RenderMarker(prefix, s1, m1);
    RenderMarker(prefix, s2, m2);
    if HasCode(s1) && HasCode(s2) {
      RenderedCodeAndMessage(prefix, s1.value, m1, s2.value, m2);
    } else if !HasCode(s1) && !HasCode(s2) {
      var r := Render(prefix, s1, m1);
      assert m1 == r[|prefix| + 2..] && m2 == r[|prefix| + 2..];
    }
  }

  /** A rendered JiraAPIError never reads like a rendered SDKError. */
  lemma JiraAndSdkStringsDiffer(e: JiraError, f: SdkError)
    ensures JiraErrorString(e) != SdkErrorString(f)
  {
    assert JiraErrorString(e)[0] == 'J';
    assert SdkErrorString(f)[0] == 'S';
  }

  /** A list of one string that needs no escape prints as that string
      between quotes and brackets. */
  lemma ReprOfOneStringList(d: string)
    requires '\'' !in d && '\\' !in d
    ensures PyStr(JArr([JStr(d)])) == "['" + d + "']"
  {
    var items := [JStr(d)];
    var parts := seq(|items|, k requires 0 <= k < |items| => Repr(items[k]));
    assert parts == ["'" + d + "'"];
    assert Join(", ", parts) == "'" + d + "'";
  }

  /** A request-validation answer whose `detail` is a list of one string
      renders that list the way Python prints it. */
  lemma RenderingOfListDetail(d: string)
    requires '\'' !in d && '\\' !in d
    ensures SdkErrorString(NewSdkError(JArr([JStr(d)]), Some(422), None)) == "SDK Error (422): ['" + d + "']"
  {
    ReprOfOneStringList(d);
    assert NatToString(422) == "422";
  }

  /** The renderings the exception tests expect. */
  lemma RenderingWithoutCode()
    ensures JiraErrorString(NewJiraError("Something went wrong", None, None)) == "JIRA API Error: Something went wrong"
    ensures JiraErrorString(NewJiraError("x", Some(0), None)) == "JIRA API Error: x"
  {
    calc {
      JiraErrorString(NewJiraError("Something went wrong", None, None));
      "JIRA API Error" + ": " + "Something went wrong";
      "JIRA API Error: Something went wrong";
    }
    calc {
      JiraErrorString(NewJiraError("x", Some(0), None));
      "JIRA API Error" + ": " + "x";
      "JIRA API Error: x";
    }
  }

  lemma RenderingWithCode()
    ensures JiraErrorString(NewJiraError("Bad request", Some(400), None)) == "JIRA API Error (400): Bad request"
  {
    calc {
      JiraErrorString(NewJiraError("Bad request", Some(400), None));
      "JIRA API Error" + " (" + IntToString(400) + "): " + "Bad request";
      { assert NatToString(400) == "400"; }
      "JIRA API Error" + " (" + "400" + "): " + "Bad request";
      "JIRA API Error (400): Bad request";
    }
  }

  lemma RenderingOfDefaultAuthentication()
    ensures JiraErrorString(Typed(Authentication, DefaultMessage(Authentication))) == "JIRA API Error (401): Authentication failed"
  {
    calc {
      JiraErrorString(Typed(Authentication, DefaultMessage(Authentication)));
      "JIRA API Error" + " (" + IntToString(401) + "): " + "Authentication failed";
      { assert NatToString(40) == "40"; assert NatToString(401) == "401"; }
      "JIRA API Error" + " (" + "401" + "): " + "Authentication failed";
      "JIRA API Error (401): Authentication failed";
    }
  }

  lemma RenderingOfSdkError()
    ensures SdkErrorString(NewSdkError(JStr("Not found"), Some(404), None)) == "SDK Error (404): Not found"
  {
    calc {
      SdkErrorString(NewSdkError(JStr("Not found"), Some(404), None));
      "SDK Error" + " (" + IntToString(404) + "): " + "Not found";
      { assert NatToString(404) == "404"; }
      "SDK Error" + " (" + "404" + "): " + "Not found";
      "SDK Error (404): Not found";
    }
  }
}
