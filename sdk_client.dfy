/**
 * sdk/client.py: the client of this project's own REST server. Its
 * constructor normalises the base URL and derives HTTP Basic credentials
 * (section 2 of RFC 7617) from the API key; `_make_request` turns an answer
 * into a value or an SDKError; the other methods build request bodies and
 * query parameters.
 *
 * As for the Jira client, the transport is not modelled: `MakeRequest` takes
 * what came back as a parameter and logs what was sent. Decoding the answers
 * into Issue, User or ProjectVersion records is not part of this model; the
 * methods return the JSON they received.
 */
module SdkClient {
  import opened Wrappers
  import opened Text
  import opened Json
  import opened Errors
  import opened Http
  import opened IssueModels
  import CoreClient

  /** What `_make_request` can raise: an SDKError, or the JSONDecodeError of a
      success answer whose body does not parse, which escapes uncaught. */
  datatype SdkFailure = Sdk(error: SdkError) | Undecodable(parseError: string)

  // ---------------------------------------------------------------------
  // __init__

  /** `(api_key, "")` when the key is truthy: the key is the Basic user name
      and the password is empty. */
  function AuthFor(apiKey: Option<string>): (r: Option<(string, string)>)
    ensures r.Some? <==> apiKey.Some? && apiKey.value != ""
    ensures r.Some? ==> r.value.0 == apiKey.value && r.value.1 == ""
  {
    if NonEmpty(apiKey) then Some((apiKey.value, "")) else None
  }

  // ---------------------------------------------------------------------
  // _make_request

  /** The message the SDK shows for an error answer: the body's `detail`
      value, whatever its JSON type, when the body parses to an object that
      holds `detail`. For any other parsed value the membership test or the
      subscript raises and the default "HTTP <code>" is kept. */
  function ErrorMessage(status: int, body: Body): Json {
    if body.Parsed? && body.value.JObj? && Get(body.value.fields, "detail").Some? then
      Get(body.value.fields, "detail").value
    else JStr("HTTP " + IntToString(status))
  }

  /** The SDKError an answer with a status of at least 400 becomes. */
  function ErrorFor(status: int, body: Body): SdkError {
    NewSdkError(ErrorMessage(status, body), Some(status), ParsedBody(body))
  }

  /** What `_make_request` returns or raises for what came back. */
  function SdkClassify(ex: Exchange): Result<Json, SdkFailure> {
    match ex
    case TransportError(reason) => Failure(Sdk(NewSdkError(JStr("Request failed: " + reason), None, None)))
    case Answered(resp) =>
      if resp.status >= 400 then Failure(Sdk(ErrorFor(resp.status, resp.body)))
      else if resp.status == 204 || resp.body.Empty? then Success(EmptyObject)
      else if resp.body.Parsed? then Success(resp.body.value)
      else Failure(Undecodable(resp.body.parseError))
  }

  /** An answer succeeds exactly when its status is below 400 and it is
      either a 204, empty, or parses; what it yields is `{}` for the first
      two and the parsed value otherwise. */
  lemma SdkSuccess(resp: Response)
    ensures SdkClassify(Answered(resp)).Success? <==>
              resp.status < 400 && (resp.status == 204 || !resp.body.NotJson?)
    ensures SdkClassify(Answered(resp)).Success? ==>
              SdkClassify(Answered(resp)).value ==
                if resp.status == 204 || resp.body.Empty? then EmptyObject else resp.body.value
    ensures SdkClassify(Answered(resp)).Failure? && SdkClassify(Answered(resp)).error.Undecodable? <==>
              resp.status < 400 && resp.status != 204 && resp.body.NotJson?
  {
  }

  /** The two clients agree on which exchanges succeed and on what they
      yield; they differ only in how they fail. */
  lemma ClientsAgreeOnSuccess(ex: Exchange)
    ensures SdkClassify(ex).Success? <==> CoreClient.Classify(ex).Success?
    ensures SdkClassify(ex).Success? ==> SdkClassify(ex).value == CoreClient.Classify(ex).value
  {
    CoreClient.ClassifySuccess(ex);
    if ex.Answered? {
      SdkSuccess(ex.response);
    }
  }

  /** Every error answer raises an SDKError that carries the answer's own
      status code, so no code is folded into another. */
  lemma SdkKeepsStatus(resp: Response)
    requires resp.status >= 400
    ensures SdkClassify(Answered(resp)).Failure? && SdkClassify(Answered(resp)).error.Sdk?
    ensures SdkClassify(Answered(resp)).error.error.statusCode == Some(resp.status)
  {
  }

  /** An error body `{"detail": d, ...}` supplies the message d and is kept
      whole as the response data. */
  lemma SdkDetailMessage(status: int, fs: Fields, d: Json)
    requires status >= 400 && Get(fs, "detail") == Some(d)
    ensures SdkClassify(Answered(Response(status, Parsed(JObj(fs))))) ==
              Failure(Sdk(SdkError(d, Some(status), JObj(fs))))
  {
    GetFindsKey(fs, "detail");
  }

  /** Without a `detail` entry the message is "HTTP <code>"; the response data
      is the parsed body when it parsed and is truthy, `{}` otherwise. */
  lemma SdkDefaultMessage(status: int, body: Body)
    requires status >= 400
    requires !(body.Parsed? && body.value.JObj? && Get(body.value.fields, "detail").Some?)
    ensures SdkClassify(Answered(Response(status, body))) ==
              Failure(Sdk(SdkError(JStr("HTTP " + IntToString(status)), Some(status),
                                   if body.Parsed? && Truthy(body.value) then body.value else EmptyObject)))
  {
  }

  /** A transport failure raises an SDKError without a status code and with
      empty response data, rendered "SDK Error: Request failed: <reason>". */
  lemma SdkTransportFailure(reason: string)
    ensures SdkClassify(TransportError(reason)) ==
              Failure(Sdk(SdkError(JStr("Request failed: " + reason), None, EmptyObject)))
    ensures SdkErrorString(SdkClassify(TransportError(reason)).error.error) == "SDK Error: " + ("Request failed: " + reason)
  {
  }

  /** Where the Jira client folds a 5xx code into its fixed 500, the SDK
      reports the code it received. */
  lemma SdkAndCoreOnServerErrors(status: int, body: Body)
    requires 500 < status < 600
    ensures CoreClient.Classify(Answered(Response(status, body))).error.statusCode == Some(500)
    ensures SdkClassify(Answered(Response(status, body))).error.error.statusCode == Some(status)
  {
    CoreClient.ClassifyErrorStatus(Answered(Response(status, body)));
  }

  // ---------------------------------------------------------------------
  // Request bodies and parameters

  function StrJson(s: string): Json {
    JStr(s)
  }

  function SdkTransitionKeys(): seq<string> {
    ["transition_name", "comment", "resolution_name"]
  }

  /** The `transition_issue` body. */
  function TransitionBody(transitionName: string, comment: Option<string>, resolutionName: Option<string>): Fields {
    Zip(SdkTransitionKeys(), [JStr(transitionName), OptStrJson(comment), OptStrJson(resolutionName)])
  }

  /** All three keys are always sent, in order; an absent comment or
      resolution is sent as null. */
  lemma TransitionBodyReads(transitionName: string, comment: Option<string>, resolutionName: Option<string>)
    ensures Keys(TransitionBody(transitionName, comment, resolutionName)) == SdkTransitionKeys()
    ensures Get(TransitionBody(transitionName, comment, resolutionName), "transition_name") == Some(JStr(transitionName))
    ensures Get(TransitionBody(transitionName, comment, resolutionName), "comment") ==
              Some(if comment.Some? then JStr(comment.value) else JNull)
    ensures Get(TransitionBody(transitionName, comment, resolutionName), "resolution_name") ==
              Some(if resolutionName.Some? then JStr(resolutionName.value) else JNull)
  {
    var ks := SdkTransitionKeys();
    var vs := [JStr(transitionName), OptStrJson(comment), OptStrJson(resolutionName)];
    assert Keys(Zip(ks, vs)) == ks;
    assert NoDupFrom(ks, 0);
    GetZipAt(ks, vs, 0);
    GetZipAt(ks, vs, 1);
    GetZipAt(ks, vs, 2);
  }

  /** The `get_project_versions` query parameters. */
  function VersionParams(released: Option<bool>): Fields {
    if released.Some? then [("released", JBool(released.value))] else []
  }

  /** `released` is sent exactly when it is not None, false included. */
  lemma VersionParamsReads(released: Option<bool>)
    ensures Keys(VersionParams(released)) == if released.Some? then ["released"] else []
    ensures Get(VersionParams(released), "released") == if released.Some? then Some(JBool(released.value)) else None
    ensures Get(VersionParams(Some(false)), "released") == Some(JBool(false))
  {
    if released.Some? {
      GetSingle("released", JBool(released.value), "released");
    }
    GetSingle("released", JBool(false), "released");
  }

  /** The `create_project_version` body. */
  function VersionBody(name: string, description: Option<string>): Fields {
    [("name", JStr(name))] + Optional("description", description, StrJson)
  }

  /** The name is always sent; the description only when it is truthy. */
  lemma VersionBodyReads(name: string, description: Option<string>)
    ensures Keys(VersionBody(name, description)) == ["name"] + KeyWhen(NonEmpty(description), "description")
    ensures Get(VersionBody(name, description), "name") == Some(JStr(name))
    ensures Get(VersionBody(name, description), "description") ==
              if NonEmpty(description) then Some(JStr(description.value)) else None
  {
    var head: Fields := [("name", JStr(name))];
    KeysAppend(head, Optional("description", description, StrJson));
    assert Keys(head) == ["name"];
    GetAppend(head, Optional("description", description, StrJson), "name");
    GetAppend(head, Optional("description", description, StrJson), "description");
    GetSingle("name", JStr(name), "name");
    GetOptional("description", description, StrJson, "description");
  }

  function TypeNameKeys(): seq<string> {
    ["project_key", "summary", "issue_type_name", "description", "assignee_email", "labels"]
  }

  /** The `create_issue_by_type_name` body. */
  function TypeNameBody(projectKey: string, summary: string, issueTypeName: string, description: Option<string>,
                        assigneeEmail: Option<string>, labels: Option<seq<string>>): Fields {
    Zip(TypeNameKeys(), [JStr(projectKey), JStr(summary), JStr(issueTypeName), OptStrJson(description),
                         OptStrJson(assigneeEmail), JArr(Strings(OrEmpty(labels)))])
  }

  /** All six keys are sent, in order; absent optional strings as null and
      absent labels as the empty list. */
  lemma TypeNameBodyReads(projectKey: string, summary: string, issueTypeName: string, description: Option<string>,
                          assigneeEmail: Option<string>, labels: Option<seq<string>>)
    ensures var b := TypeNameBody(projectKey, summary, issueTypeName, description, assigneeEmail, labels);
            Keys(b) == TypeNameKeys()
            && Get(b, "project_key") == Some(JStr(projectKey))
            && Get(b, "summary") == Some(JStr(summary))
            && Get(b, "issue_type_name") == Some(JStr(issueTypeName))
            && Get(b, "description") == Some(OptStrJson(description))
            && Get(b, "assignee_email") == Some(OptStrJson(assigneeEmail))
            && Get(b, "labels") == Some(JArr(Strings(if labels.Some? then labels.value else [])))
            && (labels.None? ==> Get(b, "labels") == Some(JArr([])))
  {
    var ks := TypeNameKeys();
    var vs := [JStr(projectKey), JStr(summary), JStr(issueTypeName), OptStrJson(description),
               OptStrJson(assigneeEmail), JArr(Strings(OrEmpty(labels)))];
    assert Keys(Zip(ks, vs)) == ks;
    assert NoDupFrom(ks, 0);
    GetZipAt(ks, vs, 0);
    GetZipAt(ks, vs, 1);
    GetZipAt(ks, vs, 2);
    GetZipAt(ks, vs, 3);
    GetZipAt(ks, vs, 4);
    GetZipAt(ks, vs, 5);
  }

  /** The issue type ids `create_bug` and `create_task` use. */
  const BugTypeId := "10004"
  const TaskTypeId := "10003"

  /** The IssueCreate record `create_bug` / `create_task` build: priority and
      reporter are left unset. */
  function ConvenienceIssue(projectId: string, summary: string, description: Option<string>, issueTypeId: string,
                            assigneeAccountId: Option<string>, labels: Option<seq<string>>): IssueCreate {
    IssueCreate(projectId, summary, description, issueTypeId, None, assigneeAccountId, None, OrEmpty(labels))
  }

  function ConvenienceKeys(): seq<string> {
    ["project_id", "summary", "description", "issue_type_id", "assignee_account_id", "labels"]
  }

  /** `model_dump(exclude_unset=True)` of such a record: the six fields
      passed to the constructor, in declaration order, and no others. */
  function ConvenienceDump(c: IssueCreate): Fields {
    Zip(ConvenienceKeys(), [JStr(c.projectId), JStr(c.summary), OptStrJson(c.description), JStr(c.issueTypeId),
                            OptStrJson(c.assigneeAccountId), JArr(Strings(c.labels))])
  }

  /** The dump holds the six keys in order, each with its field's value;
      priority and reporter are not among them. */
  lemma ConvenienceDumpReads(c: IssueCreate)
    ensures Keys(ConvenienceDump(c)) == ConvenienceKeys()
    ensures Get(ConvenienceDump(c), "issue_type_id") == Some(JStr(c.issueTypeId))
    ensures Get(ConvenienceDump(c), "labels") == Some(JArr(Strings(c.labels)))
    ensures Get(ConvenienceDump(c), "priority_id") == None
    ensures Get(ConvenienceDump(c), "reporter_account_id") == None
  {
    var ks := ConvenienceKeys();
    var vs := [JStr(c.projectId), JStr(c.summary), OptStrJson(c.description), JStr(c.issueTypeId),
               OptStrJson(c.assigneeAccountId), JArr(Strings(c.labels))];
    assert Keys(Zip(ks, vs)) == ks;
    assert NoDupFrom(ks, 0);
    GetZipAt(ks, vs, 3);
    GetZipAt(ks, vs, 5);
    GetAbsent(Zip(ks, vs), "priority_id");
    GetAbsent(Zip(ks, vs), "reporter_account_id");
  }

  /** A bug and a task built from the same arguments differ only in their
      issue type: "10004" for a bug, "10003" for a task. Neither sends a
      priority or a reporter, and absent labels are sent as the empty list. */
  lemma ConvenienceIssues(projectId: string, summary: string, description: Option<string>,
                          assigneeAccountId: Option<string>, labels: Option<seq<string>>)
    ensures var bug := ConvenienceIssue(projectId, summary, description, BugTypeId, assigneeAccountId, labels);
            var task := ConvenienceIssue(projectId, summary, description, TaskTypeId, assigneeAccountId, labels);
            bug != task && bug.(issueTypeId := TaskTypeId) == task
            && Get(ConvenienceDump(bug), "issue_type_id") == Some(JStr("10004"))
            && Get(ConvenienceDump(task), "issue_type_id") == Some(JStr("10003"))
            && Get(ConvenienceDump(bug), "priority_id") == None
            && Get(ConvenienceDump(bug), "reporter_account_id") == None
            && Get(ConvenienceDump(bug), "labels") == Some(JArr(Strings(if labels.Some? then labels.value else [])))
  {
    var bug := ConvenienceIssue(projectId, summary, description, BugTypeId, assigneeAccountId, labels);
    var task := ConvenienceIssue(projectId, summary, description, TaskTypeId, assigneeAccountId, labels);
    assert bug.issueTypeId[4] != task.issueTypeId[4];
    ConvenienceDumpReads(bug);
    ConvenienceDumpReads(task);
  }

  // ---------------------------------------------------------------------
  // The client

  class JiraSdkClient {
    const baseUrl: string
    /** The Basic credentials every request carries, if any. */
    const auth: Option<(string, string)>
    /** Every request handed to the transport so far, oldest first. */
    var sent: seq<Request>

    /** `JiraSDKClient(base_url, api_key)`: a missing trailing slash is
        added; no scheme is checked. */
    constructor (baseUrl: string, apiKey: Option<string>)
      ensures this.baseUrl == WithTrailingSlash(baseUrl) && EndsWith(this.baseUrl, "/")
      ensures auth == AuthFor(apiKey) && sent == []
    {
      var url := baseUrl;
      if !EndsWith(url, "/") {
        url := url + "/";
      }
      this.baseUrl := url;
      var credentials: Option<(string, string)> := None;
      if NonEmpty(apiKey) {
        credentials := Some((apiKey.value, ""));
      }
      auth := credentials;
      sent := [];
    }

    /** `_make_request`: sends one request to the endpoint under the base
        URL and classifies what came back (`ex`). */
    method MakeRequest(verb: string, endpoint: string, params: Fields, body: Option<Json>, ex: Exchange)
      returns (r: Result<Json, SdkFailure>)
      modifies this`sent
      ensures sent == old(sent) + [Request(verb, baseUrl + endpoint, params, body)]
      ensures r == SdkClassify(ex)
    {
      sent := sent + [Request(verb, baseUrl + endpoint, params, body)];
      if ex.TransportError? {
        return Failure(Sdk(NewSdkError(JStr("Request failed: " + ex.reason), None, None)));
      }
      var resp := ex.response;
      if resp.status >= 400 {
        var errorMsg := JStr("HTTP " + IntToString(resp.status));
        var errorData: Option<Json> := None;
        if resp.body.Parsed? {
          errorData := Some(resp.body.value);
          if resp.body.value.JObj? && Get(resp.body.value.fields, "detail").Some? {
            errorMsg := Get(resp.body.value.fields, "detail").value;
          }
        }
        return Failure(Sdk(NewSdkError(errorMsg, Some(resp.status), errorData)));
      }
      if resp.status == 204 || resp.body.Empty? {
        return Success(EmptyObject);
      }
      if resp.body.NotJson? {
        return Failure(Undecodable(resp.body.parseError));
      }
      r := Success(resp.body.value);
    }

    /** `transition_issue`: a POST carrying all three keys. */
    method TransitionIssue(issueKey: string, transitionName: string, comment: Option<string>,
                           resolutionName: Option<string>, ex: Exchange)
      returns (r: Result<Json, SdkFailure>)
      modifies this`sent
      ensures sent == old(sent) + [Request("POST", baseUrl + ("issues/" + issueKey + "/transitions"), [],
                                           Some(JObj(TransitionBody(transitionName, comment, resolutionName))))]
      ensures r == SdkClassify(ex)
    {
      var jsonData := Zip(SdkTransitionKeys(), [JStr(transitionName), OptStrJson(comment), OptStrJson(resolutionName)]);
      r := MakeRequest("POST", "issues/" + issueKey + "/transitions", [], Some(JObj(jsonData)), ex);
    }

    /** `get_project_versions`: the filter becomes a query parameter only
        when one is given. */
    method GetProjectVersions(projectKey: string, released: Option<bool>, ex: Exchange)
      returns (r: Result<Json, SdkFailure>)
      modifies this`sent
      ensures sent == old(sent) + [Request("GET", baseUrl + ("projects/" + projectKey + "/versions"),
                                           VersionParams(released), None)]
      ensures r == SdkClassify(ex)
    {
      var params: Fields := [];
      if released.Some? {
        PutNew(params, "released", JBool(released.value));
        params := Put(params, "released", JBool(released.value));
      }
      assert params == VersionParams(released);
      r := MakeRequest("GET", "projects/" + projectKey + "/versions", params, None, ex);
    }

    /** `create_project_version`: the name, and the description when it is
        truthy. */
    method CreateProjectVersion(projectKey: string, name: string, description: Option<string>, ex: Exchange)
      returns (r: Result<Json, SdkFailure>)
      modifies this`sent
      ensures sent == old(sent) + [Request("POST", baseUrl + ("projects/" + projectKey + "/versions"), [],
                                           Some(JObj(VersionBody(name, description))))]
      ensures r == SdkClassify(ex)
    {
      var jsonData: Fields := [("name", JStr(name))];
      PutOptional(jsonData, "description", description, StrJson);
      if NonEmpty(description) {
        jsonData := Put(jsonData, "description", JStr(description.value));
      }
      r := MakeRequest("POST", "projects/" + projectKey + "/versions", [], Some(JObj(jsonData)), ex);
    }

    /** `create_issue_by_type_name`: the server resolves the type name. */
    method CreateIssueByTypeName(projectKey: string, summary: string, issueTypeName: string, description: Option<string>,
                                 assigneeEmail: Option<string>, labels: Option<seq<string>>, ex: Exchange)
      returns (r: Result<Json, SdkFailure>)
      modifies this`sent
      ensures sent == old(sent) + [Request("POST", baseUrl + "issues/by-type-name", [],
                                           Some(JObj(TypeNameBody(projectKey, summary, issueTypeName, description,
                                                                  assigneeEmail, labels))))]
      ensures r == SdkClassify(ex)
    {
      var labelList := if labels.Some? then labels.value else [];
      var jsonData := Zip(TypeNameKeys(), [JStr(projectKey), JStr(summary), JStr(issueTypeName), OptStrJson(description),
                                           OptStrJson(assigneeEmail), JArr(Strings(labelList))]);
      r := MakeRequest("POST", "issues/by-type-name", [], Some(JObj(jsonData)), ex);
    }

    /** `create_issue` for a record built by `create_bug` or `create_task`,
        whose set fields are the six of `ConvenienceDump`. */
    method CreateIssue(c: IssueCreate, ex: Exchange) returns (r: Result<Json, SdkFailure>)
      modifies this`sent
      ensures sent == old(sent) + [Request("POST", baseUrl + "issues", [], Some(JObj(ConvenienceDump(c))))]
      ensures r == SdkClassify(ex)
    {
      r := MakeRequest("POST", "issues", [], Some(JObj(ConvenienceDump(c))), ex);
    }

    /** `create_bug`: an IssueCreate of type "10004". */
    method CreateBug(projectId: string, summary: string, description: Option<string>,
                     assigneeAccountId: Option<string>, labels: Option<seq<string>>, ex: Exchange)
      returns (r: Result<Json, SdkFailure>)
      modifies this`sent
      ensures sent == old(sent) + [Request("POST", baseUrl + "issues", [],
                                           Some(JObj(ConvenienceDump(ConvenienceIssue(projectId, summary, description,
                                                                                      BugTypeId, assigneeAccountId, labels)))))]
      ensures r == SdkClassify(ex)
    {
      var issueData := IssueCreate(projectId := projectId, summary := summary, description := description,
                                   issueTypeId := BugTypeId, priorityId := None,
                                   assigneeAccountId := assigneeAccountId, reporterAccountId := None,
                                   labels := if labels.Some? then labels.value else []);
      r := CreateIssue(issueData, ex);
    }

    /** `create_task`: an IssueCreate of type "10003". */
    method CreateTask(projectId: string, summary: string, description: Option<string>,
                      assigneeAccountId: Option<string>, labels: Option<seq<string>>, ex: Exchange)
      returns (r: Result<Json, SdkFailure>)
      modifies this`sent
      ensures sent == old(sent) + [Request("POST", baseUrl + "issues", [],
                                           Some(JObj(ConvenienceDump(ConvenienceIssue(projectId, summary, description,
                                                                                      TaskTypeId, assigneeAccountId, labels)))))]
      ensures r == SdkClassify(ex)
    {
      var issueData := IssueCreate(projectId := projectId, summary := summary, description := description,
                                   issueTypeId := TaskTypeId, priorityId := None,
                                   assigneeAccountId := assigneeAccountId, reporterAccountId := None,
                                   labels := if labels.Some? then labels.value else []);
      r := CreateIssue(issueData, ex);
    }
  }
}
