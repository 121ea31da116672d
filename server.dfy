/**
 * server.py: the REST server in front of the services. Every endpoint first
 * checks the caller's HTTP Basic credentials (section 2 of RFC 7617) against
 * the configured API key, then runs a service over a Jira client and turns a
 * JiraAPIError into an HTTP error answer.
 *
 * The handlers take the configured key, the credentials FastAPI extracted
 * (None when the request carried none) and the Jira client as parameters;
 * configuration loading, routing and the creation of the client are not part
 * of this model.
 */
module Server {
  import opened Wrappers
  import opened Text
  import opened Json
  import opened Errors
  import opened Http
  import opened UserModels
  import opened IssueModels
  import opened FakeJira
  import opened UserServices
  import opened IssueServices
  import CoreClient
  import SdkClient

  /** An HTTPException: the status code and the `detail` text. */
  datatype HttpError = HttpError(status: int, detail: string)

  /** How a handler ends: with its value, with an HTTPException, or with an
      exception that is not a JiraAPIError, which the handler does not catch
      (FastAPI then answers 500 by itself). */
  datatype Outcome<T> = Ok(value: T) | Http(error: HttpError) | Unhandled(failure: Failure)

  // ---------------------------------------------------------------------
  // verify_api_key

  /** `verify_api_key`: with no key configured every request passes; with a
      key, the Basic user name must equal it and the password is ignored. */
  function VerifyApiKey(serverApiKey: Option<string>, credentials: Option<(string, string)>): (r: Result<bool, HttpError>)
    ensures r.Success? ==> r.value
    ensures r.Failure? ==> r.error.status == 401
  {
    if !NonEmpty(serverApiKey) then Success(true)
    else if credentials.None? then Failure(HttpError(401, "Authentication required"))
    else if credentials.value.0 != serverApiKey.value then Failure(HttpError(401, "Invalid API key"))
    else Success(true)
  }

  /** A request passes exactly when no key is configured or its user name is
      the key; a rejected request is told whether credentials were missing or
      wrong. */
  lemma ApiKeyDecision(serverApiKey: Option<string>, credentials: Option<(string, string)>)
    ensures VerifyApiKey(serverApiKey, credentials).Success? <==>
              serverApiKey.None? || serverApiKey.value == ""
              || (credentials.Some? && credentials.value.0 == serverApiKey.value)
    ensures VerifyApiKey(serverApiKey, credentials).Failure? ==>
              VerifyApiKey(serverApiKey, credentials).error.detail ==
                if credentials.None? then "Authentication required" else "Invalid API key"
  {
  }

  /** Only the user name is compared. */
  lemma PasswordIgnored(serverApiKey: Option<string>, username: string, password1: string, password2: string)
    ensures VerifyApiKey(serverApiKey, Some((username, password1))) == VerifyApiKey(serverApiKey, Some((username, password2)))
  {
  }

  /** What `HTTPBasic(auto_error=False)` hands to `verify_api_key` for the
      credentials a client sent. httpx sends `user:password` (UTF-8, then
      base64); FastAPI decodes the text as ASCII, answering 401 by itself
      when that fails, and splits it at the first colon. A request without
      credentials reaches `verify_api_key` with None. */
  function ReceivedCredentials(sent: Option<(string, string)>): (r: Result<Option<(string, string)>, HttpError>)
    ensures sent.None? ==> r == Success(None)
    ensures r.Failure? <==> sent.Some? && !IsAscii(sent.value.0 + ":" + sent.value.1)
    ensures r.Failure? ==> r.error == HttpError(401, InvalidCredentials)
    ensures r.Success? && sent.Some? ==>
              r.value.Some? && r.value.value.0 + ":" + r.value.value.1 == sent.value.0 + ":" + sent.value.1
              && ':' !in r.value.value.0
  {
    if sent.None? then Success(None)
    else
      var data := sent.value.0 + ":" + sent.value.1;
      if !IsAscii(data) then Failure(HttpError(401, InvalidCredentials))
      else Success(Some(Partition(data, ':')))
  }

  const InvalidCredentials := "Invalid authentication credentials"

  /** The check an SDK client built with `api_key` meets: its credentials
      cross the wire, then `verify_api_key` runs. */
  function SdkAuthorization(serverApiKey: Option<string>, apiKey: Option<string>): Result<bool, HttpError> {
    var received :- ReceivedCredentials(SdkClient.AuthFor(apiKey));
    VerifyApiKey(serverApiKey, received)
  }

  /** The SDK client gets through exactly when its key (if any) is ASCII and
      either the server has no key or the part of the SDK's key before its
      first colon is the server's key. */
  lemma SdkClientAuthenticates(serverApiKey: Option<string>, apiKey: Option<string>)
    ensures SdkAuthorization(serverApiKey, apiKey).Success? <==>
              (!NonEmpty(apiKey) || IsAscii(apiKey.value))
              && (!NonEmpty(serverApiKey)
                  || (NonEmpty(apiKey) && Partition(apiKey.value, ':').0 == serverApiKey.value))
  {
    if NonEmpty(apiKey) {
      var k := apiKey.value;
      var data := k + ":" + "";
      assert data == k + [':'] + "";
      PartitionAppend(k, ':', "");
      assert IsAscii(data) <==> IsAscii(k) by {
        assert forall i :: 0 <= i < |k| ==> data[i] == k[i];
        assert data[|k|] == ':';
      }
    }
  }

  /** For ASCII keys without a colon this is plain equality of the keys. */
  lemma SdkClientWithPlainKey(serverApiKey: Option<string>, apiKey: Option<string>)
    requires NonEmpty(apiKey) ==> IsAscii(apiKey.value) && ':' !in apiKey.value
    ensures SdkAuthorization(serverApiKey, apiKey).Success? <==>
              !NonEmpty(serverApiKey) || (NonEmpty(apiKey) && apiKey.value == serverApiKey.value)
  {
    SdkClientAuthenticates(serverApiKey, apiKey);
  }

  /** A configured key holding a colon locks out an SDK client that uses the
      very same key: only the part before the colon arrives as the user name. */
  lemma ColonKeyLocksOutSdk(key: string)
    requires IsAscii(key) && ':' in key
    ensures SdkAuthorization(Some(key), Some(key)) == Failure(HttpError(401, "Invalid API key"))
  {
    SdkClientAuthenticates(Some(key), Some(key));
    assert Partition(key, ':').0 != key by {
      var p := Partition(key, ':');
      assert key == p.0 + [':'] + p.1;
    }
  }

  // ---------------------------------------------------------------------
  // JiraAPIError -> HTTPException

  /** `HTTPException(status_code=e.status_code or 400, detail=str(e))`. */
  function ToHttpError(e: JiraError): (h: HttpError)
    ensures h.detail == JiraErrorString(e)
    ensures h.status != 0
    ensures HasCode(e.statusCode) ==> h.status == e.statusCode.value
  {
    HttpError(if HasCode(e.statusCode) then e.statusCode.value else 400, JiraErrorString(e))
  }

  /** The `except JiraAPIError` around every handler body. */
  function Respond<T>(r: Result<T, Failure>): (o: Outcome<T>)
    ensures o.Ok? <==> r.Success?
    ensures o.Ok? ==> o.value == r.value
    ensures o.Http? <==> r.Failure? && r.error.Api?
    ensures o.Http? ==> o.error == ToHttpError(r.error.error)
    ensures o.Unhandled? ==> o.failure == r.error
  {
    match r
    case Success(v) => Ok(v)
    case Failure(f) => if f.Api? then Http(ToHttpError(f.error)) else Unhandled(f)
  }

  /** The status the server answers with when the Jira call behind it
      failed: Jira's own code below 500, 500 for any code from 500 on, and
      400 for a transport failure or an unparseable Jira answer. */
  lemma UpstreamStatus(ex: Exchange)
    requires CoreClient.Classify(ex).Failure?
    ensures ToHttpError(CoreClient.Classify(ex).error).status ==
              if ex.TransportError? || ex.response.status < 400 then 400
              else if ex.response.status >= 500 then 500
              else ex.response.status
  {
    CoreClient.ClassifyErrorStatus(ex);
    CoreClient.ClassifyUncodedErrors(ex);
    if ex.Answered? && ex.response.status >= 400 {
      var e := CoreClient.Classify(ex).error;
      if e.kind.Some? {
        FixedStatusFacts(e.kind.value, e.kind.value);
      }
    }
  }

  // ---------------------------------------------------------------------
  // PATCH /issues/{issue_key}

  /** The PATCH handler sends the service calls of `UpdateCalls`; the
      description and the priority of the request are ignored. */
  lemma PatchIgnoresDescriptionAndPriority(issueKey: string, u: IssueUpdate, description: Option<string>,
                                           priorityId: Option<string>)
    ensures UpdateCalls(issueKey, u) == UpdateCalls(issueKey, u.(description := description, priorityId := priorityId))
  {
  }

  function UpdatedMessage(issueKey: string): string {
    "Issue " + issueKey + " updated successfully"
  }

  /** `update_issue`: the key check, then the one-field updates in order;
      the first that raises is answered as an HTTP error and the rest are
      not sent. */
  method UpdateIssue(serverApiKey: Option<string>, credentials: Option<(string, string)>, client: FakeClient,
                     issueKey: string, update: IssueUpdate)
    returns (o: Outcome<string>)
    modifies client`calls
    ensures VerifyApiKey(serverApiKey, credentials).Failure? ==>
              client.calls == old(client.calls) && o == Http(VerifyApiKey(serverApiKey, credentials).error)
    ensures VerifyApiKey(serverApiKey, credentials).Success? ==>
              client.calls == old(client.calls) + StopAtFailure(UpdateCalls(issueKey, update), client.replies)
              && o == if FirstFailure(UpdateCalls(issueKey, update), client.replies).Failure?
                      then Respond(Failure(FirstFailure(UpdateCalls(issueKey, update), client.replies).error))
                      else Ok(UpdatedMessage(issueKey))
  {
    var authorized := VerifyApiKey(serverApiKey, credentials);
    if authorized.Failure? {
      return Http(authorized.error);
    }
    var done := ApplyUpdate(client, issueKey, update);
    if done.Failure? {
      return Respond(Failure(done.error));
    }
    o := Ok(UpdatedMessage(issueKey));
  }

  // ---------------------------------------------------------------------
  // GET /users/{identifier}

  function UserNotFoundDetail(identifier: string): string {
    "User '" + identifier + "' not found"
  }

  /** What `get_user` answers for the look-up's result. */
  function UserAnswer(found: Result<Option<User>, Failure>, identifier: string): (o: Outcome<User>)
    ensures found == Success(None) ==> o == Http(HttpError(404, UserNotFoundDetail(identifier)))
    ensures o.Ok? <==> found.Success? && found.value.Some?
    ensures o.Ok? ==> o.value == found.value.value
  {
    match found
    case Failure(f) => Respond(Failure(f))
    case Success(None) => Http(HttpError(404, UserNotFoundDetail(identifier)))
    case Success(Some(u)) => Ok(u)
  }

  /** The 404 about the user comes only from a look-up that found nobody;
      a JiraAPIError's answer always shows its rendering instead. */
  lemma UserNotFoundOnlyWhenMissing(found: Result<Option<User>, Failure>, identifier: string)
    requires found.Failure? && found.error.Api?
    ensures UserAnswer(found, identifier).Http?
    ensures UserAnswer(found, identifier).error.detail == JiraErrorString(found.error.error)
    ensures UserAnswer(found, identifier).error.detail != UserNotFoundDetail(identifier)
  {
    assert JiraErrorString(found.error.error)[0] == 'J';
    assert UserNotFoundDetail(identifier)[0] == 'U';
  }

  /** `get_user`. */
  method GetUser(serverApiKey: Option<string>, credentials: Option<(string, string)>, client: FakeClient,
                 identifier: string)
    returns (o: Outcome<User>)
    modifies client`calls
    ensures VerifyApiKey(serverApiKey, credentials).Failure? ==>
              client.calls == old(client.calls) && o == Http(VerifyApiKey(serverApiKey, credentials).error)
    ensures VerifyApiKey(serverApiKey, credentials).Success? && client.replies.user.Success? ==>
              client.calls == old(client.calls) + [Call.GetUser(identifier)] && o == Ok(client.replies.user.value)
    ensures VerifyApiKey(serverApiKey, credentials).Success? && client.replies.user.Failure? ==>
              client.calls == old(client.calls) + [Call.GetUser(identifier), Call.SearchUsers(identifier, 1)]
              && o == UserAnswer(ByEmail(client.replies.users, identifier), identifier)
  {
    var authorized := VerifyApiKey(serverApiKey, credentials);
    if authorized.Failure? {
      return Http(authorized.error);
    }
    var userService := new UserService(client);
    var user := userService.GetUserByIdentifier(identifier);
    if user.Failure? {
      return Respond(Failure(user.error));
    }
    if user.value.None? {
      return Http(HttpError(404, UserNotFoundDetail(identifier)));
    }
    o := Ok(user.value.value);
  }

  // ---------------------------------------------------------------------
  // POST /issues

  /** The handler passes no assignee email, so the record that reaches the
      client is the posted one with its assignee and reporter dropped. */
  lemma CreateDropsAccounts(data: IssueCreate, found: Result<seq<User>, Failure>)
    ensures CreateIssueCalls(data.projectId, data.summary, data.issueTypeId, data.description, data.priorityId,
                             None, Some(data.labels), found)
            == [Call.CreateIssue(data.(assigneeAccountId := None, reporterAccountId := None))]
  {
  }

  /** `create_issue`. */
  method CreateIssue(serverApiKey: Option<string>, credentials: Option<(string, string)>, client: FakeClient,
                     data: IssueCreate)
    returns (o: Outcome<Json>)
    modifies client`calls
    ensures VerifyApiKey(serverApiKey, credentials).Failure? ==>
              client.calls == old(client.calls) && o == Http(VerifyApiKey(serverApiKey, credentials).error)
    ensures VerifyApiKey(serverApiKey, credentials).Success? ==>
              client.calls == old(client.calls) + [Call.CreateIssue(data.(assigneeAccountId := None, reporterAccountId := None))]
              && o == Respond(client.replies.issue)
  {
    var authorized := VerifyApiKey(serverApiKey, credentials);
    if authorized.Failure? {
      return Http(authorized.error);
    }
    var issueService := new IssueService(client);
    var created := issueService.CreateIssue(data.projectId, data.summary, data.issueTypeId, data.description,
                                            data.priorityId, None, Some(data.labels));
    CreateDropsAccounts(data, client.replies.users);
    o := Respond(created);
  }
}
