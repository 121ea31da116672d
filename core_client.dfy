/**
 * core/client.py: the JiraClient. Its constructor checks and normalises the
 * base URL; `_make_request` turns one HTTP exchange into a parsed JSON value
 * or a typed JiraAPIError, in a fixed order of status checks; `create_issue`
 * checks the key of the created issue before fetching it once; and
 * `get_issue_type_id_by_name` searches a project's issue types by name,
 * ignoring case.
 *
 * The transport is not modelled: each method that talks to Jira takes the
 * exchange it would get back as a parameter and records the request it sends
 * in the client's `sent` log.
 */
module CoreClient {
  import opened Wrappers
  import opened Text
  import opened Json
  import opened Errors
  import opened Http
  import opened IssueModels

  // ---------------------------------------------------------------------
  // Base URL

  const ApiPath := "rest/api/3/"

  predicate HasHttpScheme(url: string) {
    StartsWith(url, "http://") || StartsWith(url, "https://")
  }

  const BadSchemeMessage := "Base URL must start with http:// or https://"

  /** The API root a client with that base URL talks to, or the validation
      error its constructor raises. */
  function ApiRoot(url: string): (r: Result<string, JiraError>)
    ensures r.Failure? <==> !HasHttpScheme(url)
    ensures r.Failure? ==> r.error == Typed(Validation, BadSchemeMessage)
    ensures r.Success? && EndsWith(url, "/") ==> r.value == url + ApiPath
    ensures r.Success? && !EndsWith(url, "/") ==> r.value == url + "/" + ApiPath
  {
    if !HasHttpScheme(url) then Failure(Typed(Validation, BadSchemeMessage))
    else Success(WithTrailingSlash(url) + ApiPath)
  }

  /** An accepted URL keeps its scheme and text, and the root ends in
      `/rest/api/3/`. */
  lemma ApiRootShape(url: string)
    requires HasHttpScheme(url)
    ensures StartsWith(ApiRoot(url).value, url) && HasHttpScheme(ApiRoot(url).value)
    ensures EndsWith(ApiRoot(url).value, "/" + ApiPath)
  {
    var w := WithTrailingSlash(url);
    StartsWithAppend(w, ApiPath, url);
    if StartsWith(url, "http://") {
      StartsWithAppend(url, w[|url|..], "http://");
      assert url + w[|url|..] == w;
      StartsWithAppend(w, ApiPath, "http://");
    } else {
      StartsWithAppend(url, w[|url|..], "https://");
      assert url + w[|url|..] == w;
      StartsWithAppend(w, ApiPath, "https://");
    }
    assert w + ApiPath == w[..|w| - 1] + ("/" + ApiPath);
    EndsWithAppend(w[..|w| - 1], "/" + ApiPath);
  }

  /** With or without a trailing slash, a URL gives the same root. */
  lemma ApiRootIgnoresTrailingSlash(url: string)
    requires !EndsWith(url, "/")
    ensures ApiRoot(url + "/") == ApiRoot(url)
  {
    EndsWithAppend(url, "/");
    if StartsWith(url, "http://") {
      StartsWithAppend(url, "/", "http://");
    } else if StartsWith(url, "https://") {
      StartsWithAppend(url, "/", "https://");
    }
    if StartsWith(url + "/", "http://") {
      assert (url + "/")[..7] == url[..7];
    } else if StartsWith(url + "/", "https://") {
      assert (url + "/")[..8] == url[..8];
    }
  }

  // ---------------------------------------------------------------------
  // Response classification

  /** The strings `"; ".join(v)` iterates over: the items of a list of
      strings, the characters of a string, the keys of an object; None where
      the join raises (a list holding a non-string, a number, a boolean, null). */
  function JoinParts(v: Json): Option<seq<string>> {
    match v
    case JArr(items) =>
      if forall i :: 0 <= i < |items| ==> items[i].JStr?
      then Some(seq(|items|, i requires 0 <= i < |items| && items[i].JStr? => items[i].s))
      else None
    case JStr(s) => Some(seq(|s|, i requires 0 <= i < |s| => [s[i]]))
    case JObj(fs) => Some(Keys(fs))
    case _ => None
  }

  /** `"; ".join(response.json()["errorMessages"])` when the body parses to an
      object holding that key and the join succeeds; None when any step raises
      (the source then keeps its default message). */
  function ErrorMessages(b: Body): (r: Option<string>)
    ensures r.Some? ==> b.Parsed? && b.value.JObj? && Get(b.value.fields, "errorMessages").Some?
  {
    if b.Parsed? && b.value.JObj? then
      match Get(b.value.fields, "errorMessages")
      case Some(v) => (match JoinParts(v) case Some(parts) => Some(Join("; ", parts)) case None => None)
      case None => None
    else None
  }

  function ErrorMessagesOr(b: Body, default: string): string {
    match ErrorMessages(b)
    case Some(m) => m
    case None => default
  }

  /** `_make_request` after the transport: the if/elif chain on the status
      code, then the success path. */
  function ClassifyResponse(resp: Response): Result<Json, JiraError> {
    var code := resp.status;
    if code == 401 then Failure(Typed(Authentication, "Invalid credentials or expired token"))
    else if code == 403 then Failure(Typed(Permission, "Insufficient permissions for this operation"))
    else if code == 404 then Failure(Typed(NotFound, "Resource not found"))
    else if code == 400 then Failure(Typed(Validation, ErrorMessagesOr(resp.body, "Bad request")))
    else if code == 429 then Failure(Typed(RateLimit, "Rate limit exceeded"))
    else if code >= 500 then Failure(Typed(Server, "Server error: " + IntToString(code)))
    else if code >= 400 then
      Failure(NewJiraError(ErrorMessagesOr(resp.body, "HTTP " + IntToString(code)), Some(code), None))
    else if code == 204 then Success(EmptyObject)
    else
      match resp.body
      case Empty => Success(EmptyObject)
      case Parsed(v) => Success(v)
      case NotJson(e) => Failure(NewJiraError("Failed to parse response JSON: " + e, None, None))
  }

  /** The whole of `_make_request`: a transport error becomes a JiraAPIError
      without a status code; an error raised by the classification passes
      through unchanged. */
  function Classify(ex: Exchange): Result<Json, JiraError> {
    match ex
    case TransportError(reason) => Failure(NewJiraError("Request failed: " + reason, None, None))
    case Answered(resp) => ClassifyResponse(resp)
  }

  /** Every status below 400 takes the success path, and only the success
      path succeeds: a 204 or an empty body gives `{}`, a parsed body is
      returned as it is, and an unparseable body fails. */
  lemma ClassifySuccess(ex: Exchange)
    ensures Classify(ex).Success? <==>
              ex.Answered? && ex.response.status < 400 && (ex.response.status == 204 || !ex.response.body.NotJson?)
    ensures Classify(ex).Success? ==>
              Classify(ex).value == if ex.response.status == 204 || ex.response.body.Empty? then EmptyObject
                                    else ex.response.body.value
  {
  }

  /** The status code a classified error carries. */
  function ErrorStatusFor(code: int): Option<ErrorKind> {
    if code == 401 then Some(Authentication)
    else if code == 403 then Some(Permission)
    else if code == 404 then Some(NotFound)
    else if code == 400 then Some(Validation)
    else if code == 429 then Some(RateLimit)
    else if code >= 500 then Some(Server)
    else None
  }

  /** A typed error comes only from an answer whose code is its subclass's
      fixed code (any code of 500 or more for the server error, which always
      reports 500); every status of 400 or more fails, carrying its own code
      when no subclass claims it. */
  lemma ClassifyErrorStatus(ex: Exchange)
    ensures Classify(ex).Failure? && Classify(ex).error.kind.Some? ==>
              var k := Classify(ex).error.kind.value;
              ex.Answered? && Classify(ex).error.statusCode == Some(FixedStatus(k))
              && (k == Server <==> ex.response.status >= 500)
              && (k != Server ==> ex.response.status == FixedStatus(k))
    ensures ex.Answered? && ex.response.status >= 400 ==>
              Classify(ex).Failure? && Classify(ex).error.kind == ErrorStatusFor(ex.response.status)
              && HasCode(Classify(ex).error.statusCode)
              && (Classify(ex).error.kind.None? ==> Classify(ex).error.statusCode == Some(ex.response.status))
  {
  }

  /** The failures that carry no status code are exactly a transport error and
      an unparseable success body. */
  lemma ClassifyUncodedErrors(ex: Exchange)
    ensures Classify(ex).Failure? && !HasCode(Classify(ex).error.statusCode) <==>
              ex.TransportError? || (ex.response.status < 400 && ex.response.status != 204 && ex.response.body.NotJson?)
  {
    if ex.Answered? && ex.response.status >= 400 {
      ClassifyErrorStatus(ex);
    }
  }

  /** `str()` of those two failures shows no code. */
  lemma UncodedErrorStrings(reason: string, status: int, parseError: string)
    requires status < 400 && status != 204
    ensures Classify(TransportError(reason)).error.message == "Request failed: " + reason
    ensures JiraErrorString(Classify(TransportError(reason)).error) == "JIRA API Error: " + ("Request failed: " + reason)
    ensures Classify(Answered(Response(status, NotJson(parseError)))).error.message
            == "Failed to parse response JSON: " + parseError
    ensures JiraErrorString(Classify(Answered(Response(status, NotJson(parseError)))).error)
            == "JIRA API Error: " + ("Failed to parse response JSON: " + parseError)
  {
    assert "JIRA API Error" + ": " == "JIRA API Error: ";
  }

  /** A 400 and an unclaimed 4xx code report the server's errorMessages,
      joined with "; ", when there are any to join, and their default text
      otherwise; no classified error carries response data. */
  lemma ClassifyErrorMessages(resp: Response, msgs: seq<string>)
    ensures resp.status == 400 ==>
              Classify(Answered(resp)).Failure? &&
              Classify(Answered(resp)).error.message ==
                if ErrorMessages(resp.body).Some? then ErrorMessages(resp.body).value else "Bad request"
    ensures 400 < resp.status < 500 && ErrorStatusFor(resp.status).None? ==>
              Classify(Answered(resp)).Failure? &&
              Classify(Answered(resp)).error.message ==
                if ErrorMessages(resp.body).Some? then ErrorMessages(resp.body).value
                else "HTTP " + IntToString(resp.status)
    ensures resp.body == Parsed(JObj([("errorMessages", JArr(Strings(msgs)))])) ==>
              ErrorMessages(resp.body) == Some(Join("; ", msgs))
    ensures Classify(Answered(resp)).Failure? ==> Classify(Answered(resp)).error.responseData == EmptyObject
  {
    if resp.body == Parsed(JObj([("errorMessages", JArr(Strings(msgs)))])) {
      GetSingle("errorMessages", JArr(Strings(msgs)), "errorMessages");
      var items := Strings(msgs);
      assert seq(|items|, i requires 0 <= i < |items| && items[i].JStr? => items[i].s) == msgs;
    }
  }

  /** The examples the classification is documented with. */
  lemma ClassifyExamples()
    ensures Classify(Answered(Response(503, Empty))) == Failure(Typed(Server, "Server error: 503"))
    ensures Classify(Answered(Response(418, Empty))) == Failure(NewJiraError("HTTP 418", Some(418), None))
    ensures Classify(Answered(Response(302, Empty))) == Success(EmptyObject)
    ensures Classify(Answered(Response(204, NotJson("x")))) == Success(EmptyObject)
  {
    calc {
      Classify(Answered(Response(503, Empty)));
      Failure(Typed(Server, "Server error: " + IntToString(503)));
      { assert NatToString(503) == "503"; }
      Failure(Typed(Server, "Server error: " + "503"));
    }
    assert "Server error: " + "503" == "Server error: 503";
    calc {
      Classify(Answered(Response(418, Empty)));
      Failure(NewJiraError("HTTP " + IntToString(418), Some(418), None));
      { assert NatToString(418) == "418"; }
      Failure(NewJiraError("HTTP " + "418", Some(418), None));
    }
    assert "HTTP " + "418" == "HTTP 418";
  }

  // ---------------------------------------------------------------------
  // Issue-type search (`get_issue_type_id_by_name`)

  /** Python's iteration over a JSON value: a list yields its items, a string
      its characters and an object its keys; anything else raises TypeError. */
  function Iterate(v: Json): (r: Result<seq<Json>, Failure>)
    ensures v.JArr? ==> r == Success(v.items)
    ensures r.Failure? <==> !(v.JArr? || v.JStr? || v.JObj?)
  {
    match v
    case JArr(items) => Success(items)
    case JStr(s) => Success(seq(|s|, i requires 0 <= i < |s| => JStr([s[i]])))
    case JObj(fs) => Success(Strings(Keys(fs)))
    case _ => Failure(Malformed("the issue types are not iterable"))
  }

  /** `issue_type.get("name", "")`, ready for `.lower()`: raises when the issue
      type is not an object or its name is not a string. */
  function TypeName(t: Json): Result<string, Failure> {
    if !t.JObj? then Failure(Malformed("an issue type is not an object"))
    else match Get(t.fields, "name")
      case None => Success("")
      case Some(JStr(n)) => Success(n)
      case Some(_) => Failure(Malformed("an issue type name is not a string"))
  }

  /** The issue type at position i is well formed and does not match. */
  predicate Passed(types: seq<Json>, query: string, i: nat)
    requires i < |types|
  {
    TypeName(types[i]).Success? && !SameIgnoringCase(TypeName(types[i]).value, query)
  }

  /** The search loop from position i on: the position of the first issue type
      whose name matches the query ignoring case, None when none does, or the
      error the first ill-formed issue type before any match raises. */
  function FindType(types: seq<Json>, query: string, i: nat): (r: Result<Option<nat>, Failure>)
    requires i <= |types|
    decreases |types| - i
    ensures r.Success? && r.value.Some? ==>
              var k := r.value.value;
              i <= k < |types| && TypeName(types[k]).Success? && SameIgnoringCase(TypeName(types[k]).value, query)
              && forall j :: i <= j < k ==> Passed(types, query, j)
    ensures r.Success? && r.value.None? ==> forall j :: i <= j < |types| ==> Passed(types, query, j)
    ensures r.Failure? ==>
              exists k :: i <= k < |types| && TypeName(types[k]).Failure? && r.error == TypeName(types[k]).error
                          && forall j :: i <= j < k ==> Passed(types, query, j)
  {
    if i == |types| then Success(None)
    else match TypeName(types[i])
      case Failure(e) => Failure(e)
      case Success(n) =>
        if SameIgnoringCase(n, query) then Success(Some(i))
        else FindType(types, query, i + 1)
  }

  /** `issue_type["id"]`: raises KeyError when absent. */
  function TypeId(t: Json): Result<string, Failure> {
    if !t.JObj? then Failure(Malformed("an issue type is not an object"))
    else match Get(t.fields, "id")
      case Some(JStr(id)) => Success(id)
      case Some(_) => Failure(Malformed("an issue type id is not a string"))
      case None => Failure(Malformed("an issue type has no id"))
  }

  function NotFoundMessage(query: string, projectKey: string, names: seq<string>): string {
    "Issue type '" + query + "' not found in project '" + projectKey + "'. Available types: " + Join(", ", names)
  }

  /** The names of issue types that all have one, in order. */
  function TypeNames(types: seq<Json>): (names: seq<string>)
    requires forall j :: 0 <= j < |types| ==> TypeName(types[j]).Success?
    ensures |names| == |types|
    ensures forall j :: 0 <= j < |types| ==> names[j] == TypeName(types[j]).value
  {
    seq(|types|, j requires 0 <= j < |types| => TypeName(types[j]).value)
  }

  /** The search over the value of a project's `issueTypes`. */
  function IssueTypeIdByName(issueTypes: Json, projectKey: string, query: string): Result<string, Failure> {
    var types :- Iterate(issueTypes);
    var found :- FindType(types, query, 0);
    match found
    case Some(k) => TypeId(types[k])
    case None =>
      NoMatchAllNamed(types, query);
      Failure(Api(Typed(Validation, NotFoundMessage(query, projectKey, TypeNames(types)))))
  }

  /** When the search finds no match, every issue type had a name. */
  lemma NoMatchAllNamed(types: seq<Json>, query: string)
    requires FindType(types, query, 0) == Success(None)
    ensures forall j :: 0 <= j < |types| ==> TypeName(types[j]).Success?
  {
    forall j | 0 <= j < |types| ensures TypeName(types[j]).Success? {
      assert Passed(types, query, j);
    }
  }

  /** A list of well-formed issue types: the search gives the id of the first
      one whose name matches the query ignoring case, and when none matches it
      raises a validation error that lists every name in order. */
  lemma IssueTypeIdByNameFinds(types: seq<Json>, projectKey: string, query: string)
    requires forall j :: 0 <= j < |types| ==> TypeName(types[j]).Success? && TypeId(types[j]).Success?
    ensures var r := IssueTypeIdByName(JArr(types), projectKey, query);
            (r.Success? <==> exists j :: 0 <= j < |types| && SameIgnoringCase(TypeName(types[j]).value, query))
            && (r.Success? ==> exists k :: 0 <= k < |types| && r.value == TypeId(types[k]).value
                                           && SameIgnoringCase(TypeName(types[k]).value, query)
                                           && forall j :: 0 <= j < k ==> !SameIgnoringCase(TypeName(types[j]).value, query))
            && (r.Failure? ==> r.error == Api(Typed(Validation, NotFoundMessage(query, projectKey, TypeNames(types)))))
  {
    assert Iterate(JArr(types)) == Success(types);
    var f := FindType(types, query, 0);
    if f.Failure? {
      assert false;
    } else if f.value.Some? {
      var k := f.value.value;
      assert IssueTypeIdByName(JArr(types), projectKey, query) == TypeId(types[k]);
      forall j | 0 <= j < k ensures !SameIgnoringCase(TypeName(types[j]).value, query) {
        assert Passed(types, query, j);
      }
    } else {
      forall j | 0 <= j < |types| ensures !SameIgnoringCase(TypeName(types[j]).value, query) {
        assert Passed(types, query, j);
      }
    }
  }

  /** The search from position i stops at k, the first match at or after i. */
  lemma {:induction false} FindTypeStopsAt(types: seq<Json>, query: string, i: nat, k: nat)
    requires i <= k < |types|
    requires forall j :: i <= j < k ==> Passed(types, query, j)
    requires TypeName(types[k]).Success? && SameIgnoringCase(TypeName(types[k]).value, query)
    ensures FindType(types, query, i) == Success(Some(k))
    decreases k - i
  {
    if i < k {
      assert Passed(types, query, i);
      FindTypeStopsAt(types, query, i + 1, k);
    }
  }

  /** The search from position i finds nothing when no type from i on matches. */
  lemma {:induction false} FindTypeFindsNone(types: seq<Json>, query: string, i: nat)
    requires i <= |types|
    requires forall j :: i <= j < |types| ==> Passed(types, query, j)
    ensures FindType(types, query, i) == Success(None)
    decreases |types| - i
  {
    if i < |types| {
      assert Passed(types, query, i);
      FindTypeFindsNone(types, query, i + 1);
    }
  }

  /** The lookup returns the id of the first matching issue type. */
  lemma FirstMatchId(types: seq<Json>, projectKey: string, query: string, k: nat)
    requires k < |types|
    requires forall j :: 0 <= j < k ==> Passed(types, query, j)
    requires TypeName(types[k]).Success? && SameIgnoringCase(TypeName(types[k]).value, query)
    ensures IssueTypeIdByName(JArr(types), projectKey, query) == TypeId(types[k])
  {
    FindTypeStopsAt(types, query, 0, k);
  }

  /** The lookup of a name no issue type has lists them all. */
  lemma NoMatchMessage(types: seq<Json>, projectKey: string, query: string)
    requires forall j :: 0 <= j < |types| ==> Passed(types, query, j)
    ensures forall j :: 0 <= j < |types| ==> TypeName(types[j]).Success?
    ensures IssueTypeIdByName(JArr(types), projectKey, query)
            == Failure(Api(Typed(Validation, NotFoundMessage(query, projectKey, TypeNames(types)))))
  {
    FindTypeFindsNone(types, query, 0);
    NoMatchAllNamed(types, query);
  }

  function IssueTypeJson(id: string, name: string): Json {
    JObj([("id", JStr(id)), ("name", JStr(name))])
  }

  function ExampleTypes(): seq<Json> {
    [IssueTypeJson("10000", "Epic"), IssueTypeJson("10001", "Story"),
     IssueTypeJson("10002", "Task"), IssueTypeJson("10004", "Bug")]
  }

  lemma IssueTypeJsonReads(id: string, name: string)
    ensures TypeName(IssueTypeJson(id, name)) == Success(name)
    ensures TypeId(IssueTypeJson(id, name)) == Success(id)
  {
    var fs := [("id", JStr(id)), ("name", JStr(name))];
    assert Keys(fs) == ["id", "name"];
    IndexOfIs(Keys(fs), "id", 0);
    IndexOfIs(Keys(fs), "name", 1);
  }

  lemma ExampleTypesRead()
    ensures |ExampleTypes()| == 4
    ensures TypeName(ExampleTypes()[0]) == Success("Epic") && TypeName(ExampleTypes()[1]) == Success("Story")
    ensures TypeName(ExampleTypes()[2]) == Success("Task") && TypeName(ExampleTypes()[3]) == Success("Bug")
    ensures TypeId(ExampleTypes()[1]) == Success("10001") && TypeId(ExampleTypes()[3]) == Success("10004")
  {
    IssueTypeJsonReads("10000", "Epic");
    IssueTypeJsonReads("10001", "Story");
    IssueTypeJsonReads("10002", "Task");
    IssueTypeJsonReads("10004", "Bug");
  }

  /** The client tests' exact and case-insensitive lookups of "Bug". */
  lemma BugExample(query: string)
    requires query == "Bug" || query == "bug"
    ensures IssueTypeIdByName(JArr(ExampleTypes()), "PROJ", query) == Success("10004")
  {
    var types := ExampleTypes();
    ExampleTypesRead();
    assert Lower(query) == Lower("Bug") == "bug";
    LookupExample(types, query, 3);
  }

  /** The lookup over the example types stops at k when k is the first name
      that lower-cases to the query's lower-casing. */
  lemma LookupExample(types: seq<Json>, query: string, k: nat)
    requires k < |types|
    requires forall j :: 0 <= j < |types| ==> TypeName(types[j]).Success?
    requires forall j :: 0 <= j < k ==> |TypeName(types[j]).value| != |query|
    requires Lower(TypeName(types[k]).value) == Lower(query)
    ensures IssueTypeIdByName(JArr(types), "PROJ", query) == TypeId(types[k])
  {
    forall j | 0 <= j < k ensures Passed(types, query, j) {
      assert |Lower(TypeName(types[j]).value)| != |Lower(query)|;
    }
    FirstMatchId(types, "PROJ", query, k);
  }

  /** The client tests' lookup of "STORY". */
  lemma StoryExample()
    ensures IssueTypeIdByName(JArr(ExampleTypes()), "PROJ", "STORY") == Success("10001")
  {
    var types := ExampleTypes();
    ExampleTypesRead();
    assert Lower("STORY") == Lower("Story") == "story";
    LookupExample(types, "STORY", 1);
  }

  /** A query whose length differs from every type's name matches none, and
      the error lists the names in order. */
  lemma NoMatchByLength(types: seq<Json>, projectKey: string, query: string, names: seq<string>)
    requires |names| == |types|
    requires forall j :: 0 <= j < |types| ==> TypeName(types[j]) == Success(names[j]) && |names[j]| != |query|
    ensures IssueTypeIdByName(JArr(types), projectKey, query)
            == Failure(Api(Typed(Validation, NotFoundMessage(query, projectKey, names))))
  {
    forall j | 0 <= j < |types| ensures Passed(types, query, j) {
      assert |Lower(names[j])| != |Lower(query)|;
    }
    NoMatchMessage(types, projectKey, query);
    assert TypeNames(types) == names;
  }

  /** The client tests' lookup of a type the project lacks. */
  lemma NotFoundExample()
    ensures IssueTypeIdByName(JArr(ExampleTypes()[..3]), "PROJ", "Bug")
            == Failure(Api(Typed(Validation, NotFoundMessage("Bug", "PROJ", ["Epic", "Story", "Task"]))))
  {
    var types := ExampleTypes()[..3];
    assert types == [IssueTypeJson("10000", "Epic"), IssueTypeJson("10001", "Story"), IssueTypeJson("10002", "Task")];
    IssueTypeJsonReads("10000", "Epic");
    IssueTypeJsonReads("10001", "Story");
    IssueTypeJsonReads("10002", "Task");
    NoMatchByLength(types, "PROJ", "Bug", ["Epic", "Story", "Task"]);
  }

  /** What `get_project_issue_types` returns for the project it fetched:
      `project_data.get("issueTypes", [])`. */
  function ProjectIssueTypes(data: Json): Result<Json, Failure> {
    if !data.JObj? then Failure(Malformed("the project is not an object"))
    else match Get(data.fields, "issueTypes")
      case Some(v) => Success(v)
      case None => Success(JArr([]))
  }

  /** A missing `issueTypes` key reads as the empty list, and the search over
      it then reports that no type is available. */
  lemma MissingIssueTypes(fs: Fields, projectKey: string, query: string)
    requires Get(fs, "issueTypes").None?
    ensures ProjectIssueTypes(JObj(fs)) == Success(JArr([]))
    ensures IssueTypeIdByName(JArr([]), projectKey, query)
            == Failure(Api(Typed(Validation, "Issue type '" + query + "' not found in project '" + projectKey
                                             + "'. Available types: ")))
  {
    var m := "Issue type '" + query + "' not found in project '" + projectKey + "'. Available types: ";
    assert TypeNames([]) == [];
    assert Join(", ", []) == "";
    assert NotFoundMessage(query, projectKey, []) == m + "";
    assert m + "" == m;
  }

  // ---------------------------------------------------------------------
  // Create-issue key check

  const KeyNotReturned := "Issue created but key not returned"

  /** `data.get("key")` and the truthiness check on it, then the text the key
      takes in the follow-up URL. */
  function CreatedKey(data: Json): (r: Result<string, Failure>)
    ensures data.JObj? ==>
              (r == Failure(Api(NewJiraError(KeyNotReturned, None, None)))
               <==> !(Get(data.fields, "key").Some? && Truthy(Get(data.fields, "key").value)))
    ensures data.JObj? && Get(data.fields, "key").Some? && Get(data.fields, "key").value.JStr? ==>
              r == if Get(data.fields, "key").value.s == "" then Failure(Api(NewJiraError(KeyNotReturned, None, None)))
                   else Success(Get(data.fields, "key").value.s)
    ensures data.JObj? && Get(data.fields, "key").Some? && Truthy(Get(data.fields, "key").value) ==>
              r == Success(PyStr(Get(data.fields, "key").value))
    ensures r.Success? ==> r.value != ""
  {
    if !data.JObj? then Failure(Malformed("the created issue is not an object"))
    else match Get(data.fields, "key")
      case None => Failure(Api(NewJiraError(KeyNotReturned, None, None)))
      case Some(k) =>
        if !Truthy(k) then Failure(Api(NewJiraError(KeyNotReturned, None, None)))
        else SignOfIntToString(if k.JInt? then k.i else 0); Success(PyStr(k))
  }

  /** A key that is a one-string list takes its Python form in the URL. */
  lemma CreatedListKey(key: string)
    requires '\'' !in key && '\\' !in key
    ensures CreatedKey(JObj([("key", JArr([JStr(key)]))])) == Success("['" + key + "']")
  {
    GetSingle("key", JArr([JStr(key)]), "key");
    ReprOfOneStringList(key);
    assert Truthy(JArr([JStr(key)]));
  }

  /** A failed call as the services see it. */
  function AsFailure<T>(r: Result<T, JiraError>): Result<T, Failure> {
    match r
    case Success(v) => Success(v)
    case Failure(e) => Failure(Api(e))
  }

  // ---------------------------------------------------------------------
  // The client

  class JiraClient {
    var baseUrl: string
    var email: string
    var apiToken: string
    /** Every request handed to the transport so far, oldest first. */
    var sent: seq<Request>

    constructor (baseUrl: string, email: string, apiToken: string)
      ensures this.baseUrl == baseUrl && this.email == email && this.apiToken == apiToken
      ensures sent == []
    {
      this.baseUrl := baseUrl;
      this.email := email;
      this.apiToken := apiToken;
      sent := [];
    }

    /** `JiraClient.__init__`: rejects a URL without an http or https scheme,
        appends a missing "/" and then the API path. */
    static method Connect(url: string, email: string, apiToken: string) returns (r: Result<JiraClient, JiraError>)
      ensures r.Failure? <==> ApiRoot(url).Failure?
      ensures r.Failure? ==> r.error == ApiRoot(url).error
      ensures r.Success? ==> fresh(r.value) && r.value.baseUrl == ApiRoot(url).value && r.value.sent == []
      ensures r.Success? ==> r.value.email == email && r.value.apiToken == apiToken
    {
      if !(StartsWith(url, "http://") || StartsWith(url, "https://")) {
        return Failure(Typed(Validation, BadSchemeMessage));
      }
      var base := url;
      if !EndsWith(base, "/") {
        base := base + "/";
      }
      var client := new JiraClient(base + ApiPath, email, apiToken);
      return Success(client);
    }

    /** `_make_request`: sends one request to the API root joined with the
        endpoint, and classifies what came back. */
    method MakeRequest(verb: string, endpoint: string, params: Fields, body: Option<Json>, ex: Exchange)
      returns (r: Result<Json, JiraError>)
      modifies this`sent
      ensures sent == old(sent) + [Request(verb, baseUrl + endpoint, params, body)]
      ensures r == Classify(ex)
    {
      sent := sent + [Request(verb, baseUrl + endpoint, params, body)];
      if ex.TransportError? {
        return Failure(NewJiraError("Request failed: " + ex.reason, None, None));
      }
      var response := ex.response;
      if response.status == 401 {
        return Failure(Typed(Authentication, "Invalid credentials or expired token"));
      } else if response.status == 403 {
        return Failure(Typed(Permission, "Insufficient permissions for this operation"));
      } else if response.status == 404 {
        return Failure(Typed(NotFound, "Resource not found"));
      } else if response.status == 400 {
        var errorMsg := "Bad request";
        var joined := ErrorMessages(response.body);
        if joined.Some? {
          errorMsg := joined.value;
        }
        return Failure(Typed(Validation, errorMsg));
      } else if response.status == 429 {
        return Failure(Typed(RateLimit, "Rate limit exceeded"));
      } else if response.status >= 500 {
        return Failure(Typed(Server, "Server error: " + IntToString(response.status)));
      } else if response.status >= 400 {
        var errorMsg := "HTTP " + IntToString(response.status);
        var joined := ErrorMessages(response.body);
        if joined.Some? {
          errorMsg := joined.value;
        }
        return Failure(NewJiraError(errorMsg, Some(response.status), None));
      }
      if response.status == 204 || response.body.Empty? {
        return Success(EmptyObject);
      }
      match response.body {
        case Parsed(v) => r := Success(v);
        case NotJson(e) => r := Failure(NewJiraError("Failed to parse response JSON: " + e, None, None));
      }
    }

    /** `get_issue`: one GET of the issue. Decoding the Issue record is not
        part of this model; its JSON is returned as it came. */
    method GetIssue(issueKey: string, ex: Exchange) returns (r: Result<Json, Failure>)
      modifies this`sent
      ensures sent == old(sent) + [Request("GET", baseUrl + ("issue/" + issueKey), [], None)]
      ensures r == AsFailure(Classify(ex))
    {
      var data := MakeRequest("GET", "issue/" + issueKey, [], None, ex);
      r := AsFailure(data);
    }

    /** `create_issue`: POSTs the create payload, checks the returned key and
        then makes exactly one follow-up GET for that key, and no GET when the
        POST or the key check fails. */
    method CreateIssue(c: IssueCreate, posted: Exchange, fetched: Exchange) returns (r: Result<Json, Failure>)
      modifies this`sent
      ensures var post := Request("POST", baseUrl + "issue", [], Some(JObj([("fields", JObj(CreateFields(c)))])));
              if Classify(posted).Failure? then sent == old(sent) + [post] && r == Failure(Api(Classify(posted).error))
              else if CreatedKey(Classify(posted).value).Failure? then
                sent == old(sent) + [post] && r == Failure(CreatedKey(Classify(posted).value).error)
              else
                sent == old(sent) + [post, Request("GET", baseUrl + ("issue/" + CreatedKey(Classify(posted).value).value), [], None)]
                && r == AsFailure(Classify(fetched))
    {
      var jsonData := CreateToJiraFormat(c);
      var data := MakeRequest("POST", "issue", [], Some(jsonData), posted);
      if data.Failure? {
        return Failure(Api(data.error));
      }
      var issueKey := CreatedKey(data.value);
      if issueKey.Failure? {
        return Failure(issueKey.error);
      }
      r := GetIssue(issueKey.value, fetched);
    }

    /** `get_project_issue_types`: one GET of the project. */
    method GetProjectIssueTypes(projectKey: string, ex: Exchange) returns (r: Result<Json, Failure>)
      modifies this`sent
      ensures sent == old(sent) + [Request("GET", baseUrl + ("project/" + projectKey), [], None)]
      ensures r == if Classify(ex).Failure? then Failure(Api(Classify(ex).error)) else ProjectIssueTypes(Classify(ex).value)
    {
      var projectData := MakeRequest("GET", "project/" + projectKey, [], None, ex);
      if projectData.Failure? {
        return Failure(Api(projectData.error));
      }
      r := ProjectIssueTypes(projectData.value);
    }

    /** `get_issue_type_id_by_name`: fetches the project's issue types once and
        searches them. */
    method GetIssueTypeIdByName(projectKey: string, name: string, ex: Exchange) returns (r: Result<string, Failure>)
      modifies this`sent
      ensures sent == old(sent) + [Request("GET", baseUrl + ("project/" + projectKey), [], None)]
      ensures r == if Classify(ex).Failure? then Failure(Api(Classify(ex).error))
                   else match ProjectIssueTypes(Classify(ex).value)
                        case Failure(e) => Failure(e)
                        case Success(v) => IssueTypeIdByName(v, projectKey, name)
    {
      var issueTypes := GetProjectIssueTypes(projectKey, ex);
      if issueTypes.Failure? {
        return Failure(issueTypes.error);
      }
      var iterated := Iterate(issueTypes.value);
      if iterated.Failure? {
        return Failure(iterated.error);
      }
      var types := iterated.value;
      for i := 0 to |types|
        invariant FindType(types, name, i) == FindType(types, name, 0)
      {
        var typeName := TypeName(types[i]);
        if typeName.Failure? {
          return Failure(typeName.error);
        }
        if Lower(typeName.value) == Lower(name) {
          return TypeId(types[i]);
        }
      }
      NoMatchAllNamed(types, name);
      var availableTypes := TypeNames(types);
      r := Failure(Api(Typed(Validation, NotFoundMessage(name, projectKey, availableTypes))));
    }
  }

}
