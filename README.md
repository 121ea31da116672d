# jira-api-module in Dafny

A Dafny model of the deterministic core of `jira-api-module`, a Python wrapper around the Jira Cloud REST API (version 3). The wrapper has three front ends over one client:

- a library: `JiraClient` plus the issue, project and user services;
- a small HTTP server that re-exposes those services;
- an SDK client for talking to that server;
- and a command-line interface.

The model covers the decisions these layers take. It leaves out the I/O they wrap.

## Modules

| file | module | what it models |
|---|---|---|
| `wrappers.dfy` | `Wrappers` | `Option` and `Result` with the `:-` early return. |
| `text.dfy` | `Text` | Python truthiness of optional strings (`NonEmpty`: `None` and `""` are both falsy).<br>ASCII `lower()` and `strip()`; `split(",")` and `", ".join` with their round trips.<br>Decimal rendering of integers. |
| `json.dfy` | `Json` | JSON values, with objects as ordered key lists so that Python dict insertion order is kept.<br>`Get`/`Put` with lookup and update lemmas, and truthiness of JSON values. |
| `http.dfy` | `Http` | One request, and what came back: a transport error, or a status with a body that is empty, unparseable or parsed. |
| `errors.dfy` | `Errors` | `JiraAPIError`, its six subclasses with fixed status codes, `SDKError`, and their `__str__`.<br>Status meanings follow section 15 of RFC 9110; 429 is from section 4 of RFC 6585. |
| `issue_models.dfy` | `IssueModels` | The request records `IssueCreate`, `IssueUpdate`, `IssueTransitionRequest` and `IssueAssignment`.<br>Their `to_jira_format` payloads, including the rich-text document (Atlassian Document Format) used for descriptions and comments. |
| `decoding.dfy` | `Decoding` | Generic field readers that stand for Pydantic validation: required and optional fields, defaults, alias-or-name lookup, and lists of records. |
| `user_models.dfy` | `UserModels` | `User`, `UserSearch` and `UserSearchResult` decoding, with encoders and round trips. |
| `project_models.dfy` | `ProjectModels` | `ProjectVersion`, `ProjectVersionCreate`, `IssueType`, `ProjectLead`, `Project` and `ProjectDetails` decoding, with encoders and round trips. |
| `core_client.dfy` | `CoreClient` | `JiraClient`: the base-URL check and normalisation, the response classifier of `_make_request`, the key check after an issue is created, and issue-type lookup by name. |
| `fake_jira.dfy` | `FakeJira` | The client as the services see it. It answers from canned replies, as the unit tests' mocks do, and appends every call with its arguments to a `calls` log. Each write call has its own answer: it fails with the error that `failingWrites` maps it to, and succeeds otherwise. |
| `user_service.dfy` | `UserServices` | `UserService`, including the email re-check and the id-then-email fallback. |
| `issue_service.dfy` | `IssueServices` | `IssueService`: assignee resolution, creation by type name, the one-field update helpers, assignment, and transition by name. |
| `project_service.dfy` | `ProjectServices` | `ProjectService`: the released/unreleased filter, version lookup by exact name, and version creation. |
| `sdk_client.dfy` | `SdkClient` | `JiraSDKClient`: authentication, error shaping, and the bodies and parameters of its requests. |
| `server.dfy` | `Server` | The server's API-key check (the username of RFC 7617 Basic credentials), the JiraAPIError to HTTP status mapping, and the `PATCH /issues`, `GET /users` and `POST /issues` handlers. |
| `cli.dfy` | `Cli` | The `--labels` parsing, the guard and call order of `issue update`, `issue create`, and the description truncation of `issue list-types`. |

Each class whose methods the source calls in sequence is a Dafny class:

- `JiraClient` and `JiraSdkClient` append each request they send to a `sent` log.
- `FakeClient` appends each call it receives to `calls`.
- Each method's `ensures` gives the new log and the result in terms of the canned exchange or replies.

Pure rules are functions with lemmas beside them. Examples are the payload builders' specifications, the classifier, the decoders and the filters.

The loops of the source are methods with loop invariants tied to a specification function:

- the payload builders;
- issue-type lookup;
- transition lookup;
- the email re-check;
- the version lookup.

## Model

Paths are relative to the repository root.

| member | source | states |
|---|---|---|
| `Errors.NewJiraError` | src/jira_api/exceptions.py:9-25 | The message and the status code are kept as given and no subclass kind is set. The response data is `{}` when none is passed. Given data that is truthy is kept. In every case the stored data is truthy or `{}`. |
| `Errors.Typed` | src/jira_api/exceptions.py:34-79 | A subclass error has its kind and the caller's message. Its status is the kind's fixed code whatever the message, and its response data is always `{}`. |
| `Errors.FixedStatusFacts` | src/jira_api/exceptions.py:39-79 | The six fixed codes (401, 403, 404, 400, 429, 500) are pairwise distinct and lie in 400..599. Only the server error's code is 5xx. |
| `Errors.RenderMarker` | src/jira_api/exceptions.py:27-31 | The rendering is longer than its prefix. The character right after the prefix is a space exactly when a truthy code was shown, and a colon otherwise. |
| `Errors.RenderedCodeAndMessage` | src/jira_api/exceptions.py:29-30 | Two renderings with a code are equal only when both the codes and the messages are equal. |
| `Errors.RenderInjective` | src/jira_api/exceptions.py:27-31 | Equal renderings have the same message, and the same choice of whether a code was shown. When a code was shown, it is the same code. |
| `Errors.JiraAndSdkStringsDiffer` | src/jira_api/exceptions.py:103-107 | A JiraAPIError and an SDKError never render to the same string, whatever the SDKError's message is. A message that is not a string is shown as its Python `repr`. |
| `Errors.Escaped` | src/jira_api/exceptions.py:103-107 | Escaping never shortens a string. A string without a backslash or a single quote is unchanged. |
| `Errors.ReprOfOneStringList` | src/jira_api/exceptions.py:103-107 | A list of one string without backslash or quote is shown as `['<text>']`. |
| `Errors.RenderingOfListDetail` | src/jira_api/exceptions.py:103-107 | An SDKError whose message is a one-string list, as a 422 `detail` is, renders as `SDK Error (422): ['<text>']`. |
| `Errors.RenderingWithoutCode` | tests/unit/test_exceptions.py:20-27 | Without a code, and with the code 0, the rendering is `JIRA API Error: <message>`. |
| `Errors.RenderingWithCode` | tests/unit/test_exceptions.py:29-34 | With the code 400 the rendering is `JIRA API Error (400): Bad request`. |
| `Errors.RenderingOfDefaultAuthentication` | tests/unit/test_exceptions.py:43-48 | The default authentication error renders as `JIRA API Error (401): Authentication failed`. |
| `Errors.NewSdkError` | src/jira_api/exceptions.py:85-101 | The message and the status code are kept as given. The response data is `{}` when none is passed, and truthy given data is kept. In every case the stored data is truthy or `{}`. |
| `Errors.RenderingOfSdkError` | tests/unit/test_exceptions.py:105-110 | An SDKError with the code 404 renders as `SDK Error (404): Not found`. |
| `IssueModels.AdfText` | src/jira_api/models/issue.py:88-98 | The reader of the rich-text document inverts the document: any text it returns is one whose document is the given JSON. |
| `IssueModels.AdfRoundTrip` | src/jira_api/models/issue.py:88-98 | The document of a text reads back as that text. |
| `IssueModels.AdfInjective` | src/jira_api/models/issue.py:88-98 | Different texts give different documents. |
| `IssueModels.CreateFieldsReads` | src/jira_api/models/issue.py:81-110 | The create `fields` object is specified by its keys and by the value of each key. The keys are always project, summary and issuetype, in that order. Then follow description, priority, assignee, reporter and labels, each exactly when its source is non-empty. The values are, in order: `{id}`, the summary, `{id}`, the document, `{id}`, `{accountId}`, `{accountId}`, and the label list unchanged. Every other key is absent. |
| `IssueModels.CreateFieldsReadsKey` | src/jira_api/models/issue.py:81-110 | The one-key form of the previous row. |
| `IssueModels.CreateFieldsKeys` | src/jira_api/models/issue.py:81-110 | The key order of the create fields, as in the `CreateFieldsReads` row. |
| `IssueModels.CreateKeysFresh` | src/jira_api/models/issue.py:87-110 | No conditional insertion overwrites an earlier key: each inserted key is new at the point where it is inserted. |
| `IssueModels.CreateToJiraFormat` | src/jira_api/models/issue.py:79-112 | The imperative builder, with one conditional insertion after another, returns `{"fields": f}`, where `f` is the object specified in the `CreateFieldsReads` row. |
| `IssueModels.LabelOperations` | src/jira_api/models/issue.py:149-152 | One operation per label, in label order, with duplicates kept. |
| `IssueModels.UpdateLabelOps` | src/jira_api/models/issue.py:148-152 | The label operations are every `{"add": l}` in `labels_add` order, followed by every `{"remove": l}` in `labels_remove` order. The length is the sum of the two list lengths. |
| `IssueModels.UpdateFieldsReads` | src/jira_api/models/issue.py:126-158 | The `update` object's keys are summary, description, labels and priority, in that order. Summary, description and priority each appear exactly when their field is non-empty; labels appears exactly when either label list is non-empty. The values are `[{"set": s}]`, `[{"set": <document>}]`, the label operations, and `[{"set": {"id": p}}]`. No other key appears. |
| `IssueModels.UpdateFieldsReadsKey` | src/jira_api/models/issue.py:126-158 | The one-key form of the previous row. |
| `IssueModels.EmptyUpdate` | src/jira_api/models/issue.py:126-160 | When every field is empty and both label lists are empty, the update object is `{}`. |
| `IssueModels.UpdateToJiraFormat` | src/jira_api/models/issue.py:124-160 | The imperative builder, whose two append loops are proved against `UpdateLabelOps`, returns `{"update": u}`, where `u` is the object specified in the `UpdateFieldsReads` row. |
| `IssueModels.TransitionDataReads` | src/jira_api/models/issue.py:172-204 | `transition = {"id": tid}` is always present. `fields = {"resolution": {"name": r}}` is present exactly when the resolution name is non-empty. `update = {"comment": [{"add": {"body": <document of the comment>}}]}` is present exactly when the comment is non-empty. No other key appears. |
| `IssueModels.TransitionDataReadsKey` | src/jira_api/models/issue.py:172-204 | The one-key form of the previous row. |
| `IssueModels.TransitionToJiraFormat` | src/jira_api/models/issue.py:170-204 | The imperative builder returns the object specified in the `TransitionDataReads` row. |
| `IssueModels.AssignedAccount` | src/jira_api/models/issue.py:212-216 | The assignment reader never yields an empty account id. |
| `IssueModels.AssignmentRoundTrip` | src/jira_api/models/issue.py:212-216 | The payload's only key is `accountId`. It reads back as the id when the id is non-empty, and as no assignee otherwise. |
| `IssueModels.UnassignIsNotAssign` | src/jira_api/models/issue.py:212-216 | `None` and `""` give the same unassign payload. Any non-empty id gives a different payload. |
| `UserModels.DecodeUser` | src/jira_api/models/user.py:8-25 | Something other than an object is rejected. A missing account id (under either name) is a missing `account_id`. A decoded user's id and display name are the strings found under the alias or the field name. |
| `UserModels.UserFrom` | src/jira_api/models/user.py:11-17 | `account_id` and `display_name` are required. `active` defaults to true. The email, avatar URLs, time zone and locale default to `None`. |
| `UserModels.UserRoundTrip` | src/jira_api/models/user.py:8-25 | Encoding a user with its aliases and decoding the result gives back the same user. |
| `UserModels.UserByFieldNames` | src/jira_api/models/user.py:11-22 | With `populate_by_name`, any user written with every field under its Python name (`account_id`, `email_address`, `display_name`, `avatar_urls`, `time_zone`, …) instead of its alias decodes to that same user. |
| `UserModels.UserRequiresAccountId` | tests/unit/test_models.py:253-256 | Decoding `{}` fails on the missing `account_id`. |
| `UserModels.UserRequiresDisplayName` | src/jira_api/models/user.py:13 | An object with only an account id fails on the missing `display_name`. |
| `UserModels.UserDefaults` | tests/unit/test_models.py:22-33 | The id and the display name alone decode to a user with those values, `active` true and everything else `None`. The same holds whether the aliases or the snake_case names are used. |
| `UserModels.AbsentOptionalUserFields` | src/jira_api/models/user.py:12-17 | An object holding only the id and name keys has none of the optional fields under either spelling. |
| `UserModels.UserAliasWins` | src/jira_api/models/user.py:11-22 | When both `accountId` and `account_id` are present, the alias is the one read. |
| `UserModels.UserIgnoresUnknownKey` | src/jira_api/models/user.py:8-25 | Adding a key that is neither a field name nor an alias does not change the decoding. |
| `UserModels.UsersRoundTrip` | src/jira_api/models/user.py:8-25 | A list of users encodes and decodes back to itself. |
| `UserModels.DecodeUserSearch` | src/jira_api/models/user.py:28-34 | `query` is required. `project_keys` defaults to `None`, `start_at` to 0 and `max_results` to 50. |
| `UserModels.UserSearchRoundTrip` | src/jira_api/models/user.py:28-34 | A search record encodes and decodes back to itself. |
| `UserModels.UserSearchDefaults` | tests/unit/test_models.py:52-59 | A query with `max_results` decodes to `start_at` 0 and `project_keys` `None`. |
| `UserModels.DecodeUserSearchResult` | src/jira_api/models/user.py:37-43 | Absent fields default to `[]`, 0, 0 and 50. |
| `UserModels.UserSearchResultRoundTrip` | src/jira_api/models/user.py:37-43 | A search result encodes and decodes back to itself. |
| `UserModels.UserSearchResultDefaults` | src/jira_api/models/user.py:40-43 | `{}` decodes to an empty result with `max_results` 50. |
| `ProjectModels.DecodeVersion` | src/jira_api/models/project.py:9-22 | `id`, `name` and an integer `project_id` are required. `archived` and `released` default to false and `description` to `None`. |
| `ProjectModels.VersionFrom` | src/jira_api/models/project.py:12-22 | The same rules over the individual fields: every optional field defaults to `None`. |
| `ProjectModels.VersionRoundTrip` | src/jira_api/models/project.py:9-22 | A version encodes and decodes back to itself. |
| `ProjectModels.DecodeVersionCreate` | src/jira_api/models/project.py:25-34 | Decoding fails when `name` or `project_id` is missing, and a missing name is reported as such. `archived` and `released` default to false. |
| `ProjectModels.VersionCreateFrom` | src/jira_api/models/project.py:28-34 | The same rules over the individual fields. The description and the dates default to `None`. |
| `ProjectModels.VersionCreateRoundTrip` | src/jira_api/models/project.py:25-34 | A version-create record encodes and decodes back to itself. |
| `ProjectModels.VersionCreateRequiresName` | tests/unit/test_models.py:263-266 | Decoding `{}` fails on the missing `name`. |
| `ProjectModels.DecodeIssueType` | src/jira_api/models/project.py:37-44 | `id`, `name` and `description` are required. `subtask` defaults to false and `icon_url` to `None`. |
| `ProjectModels.IssueTypeFrom` | src/jira_api/models/project.py:40-44 | The same rules over the individual fields. |
| `ProjectModels.IssueTypeRoundTrip` | src/jira_api/models/project.py:37-44 | An issue type encodes and decodes back to itself. |
| `ProjectModels.DecodeLead` | src/jira_api/models/project.py:47-56 | Every field is optional: an object without any of them decodes to an all-`None` lead. The id and display name are read under the alias or the field name. |
| `ProjectModels.LeadFrom` | src/jira_api/models/project.py:50-53 | Decoding fails only when some field is present with the wrong type. |
| `ProjectModels.LeadRoundTrip` | src/jira_api/models/project.py:47-56 | A lead encodes and decodes back to itself. |
| `ProjectModels.LeadByFieldNames` | src/jira_api/models/project.py:50-56 | Any lead written under its field names (`account_id`, `display_name`, `avatar_urls`) instead of its aliases decodes to that same lead. |
| `ProjectModels.DecodeProject` | src/jira_api/models/project.py:59-74 | `id`, `key` and `name` are required. `projectTypeKey` is read under the alias or the snake_case name. |
| `ProjectModels.ProjectFrom` | src/jira_api/models/project.py:62-71 | The same rules over the individual fields. The description, lead, type key, avatars, URL, issue types and versions default to `None`. |
| `ProjectModels.ProjectFromNested` | src/jira_api/models/project.py:66-71 | Nested leads, issue types and versions are decoded by their own models. |
| `ProjectModels.ProjectRoundTrip` | src/jira_api/models/project.py:59-74 | A project, with its nested records, encodes and decodes back to itself. |
| `ProjectModels.ProjectByFieldNames` | src/jira_api/models/project.py:59-74 | Any project written under its field names (`project_type_key`, `avatar_urls`, `issue_types`) instead of its aliases decodes to that same project. |
| `ProjectModels.ProjectBySnakeCaseName` | tests/unit/test_models.py:98-111 | A project given by snake_case names decodes with `project_type_key` set and every other optional field `None`. |
| `ProjectModels.DecodeDetails` | src/jira_api/models/project.py:77-82 | `project` is required and decoded as a project. `versions` and `issue_types` default to `[]`. |
| `ProjectModels.DetailsFrom` | src/jira_api/models/project.py:80-82 | The same rules over the individual fields. |
| `ProjectModels.DetailsRoundTrip` | src/jira_api/models/project.py:77-82 | A details record encodes and decodes back to itself. |
| `ProjectModels.DetailsDefaults` | src/jira_api/models/project.py:81-82 | A details object with only a project decodes with empty version and issue-type lists. |
| `CoreClient.ApiRoot` | src/jira_api/core/client.py:54-60 | A URL without `http://` or `https://` is rejected with a validation error (400). An accepted URL becomes itself, with `/` added when missing, followed by `rest/api/3/`. |
| `CoreClient.ApiRootShape` | src/jira_api/core/client.py:57-60 | The API root extends the given URL, keeps its scheme and ends in `/rest/api/3/`. |
| `CoreClient.ApiRootIgnoresTrailingSlash` | src/jira_api/core/client.py:57-58 | A URL with or without its trailing slash gives the same root. |
| `CoreClient.JiraClient.constructor` | src/jira_api/core/client.py:60-63 | The fields are stored and nothing has been sent. |
| `CoreClient.JiraClient.Connect` | src/jira_api/core/client.py:54-63 | The constructor with its URL check: it fails exactly when the URL is rejected. Otherwise it gives a fresh client whose base URL is the API root. |
| `CoreClient.ErrorMessages` | src/jira_api/core/client.py:133-136 | A joined message exists only when the body parsed as an object with `errorMessages`. |
| `CoreClient.ClassifySuccess` | src/jira_api/core/client.py:155-161 | The success path is taken exactly for an answered status below 400, 3xx included, whose body is parseable or whose status is 204. A 204 or an empty body gives `{}`; otherwise the parsed value is returned. |
| `CoreClient.ClassifyErrorStatus` | src/jira_api/core/client.py:125-152 | Every status of 400 or more fails with the kind its code selects. 401, 403, 404, 400 and 429 keep their code. All of 500 and above become the server error with the status 500. Other 4xx codes give a base error carrying that code. |
| `CoreClient.ClassifyUncodedErrors` | src/jira_api/core/client.py:158-164 | A failure has no truthy code exactly for a transport error, or for an unparseable body below 400 other than 204. |
| `CoreClient.UncodedErrorStrings` | src/jira_api/core/client.py:160-164 | The messages `Request failed: …` and `Failed to parse response JSON: …`, and their `JIRA API Error: …` renderings. |
| `CoreClient.ClassifyErrorMessages` | src/jira_api/core/client.py:131-152 | For 400 and for other 4xx codes, the message is the `"; "`-join of `errorMessages` when present, and otherwise `Bad request` or `HTTP <code>`. A classifier error never carries response data. |
| `CoreClient.ClassifyExamples` | src/jira_api/core/client.py:142-156 | 503 gives `Server error: 503` with the status 500. 418 gives `HTTP 418` with 418. 302 succeeds with `{}`. A 204 with an unparseable body still succeeds. |
| `CoreClient.JiraClient.MakeRequest` | src/jira_api/core/client.py:113-164 | The imperative `error_msg` chain sends one request to the base URL plus the endpoint, and its result is the classifier's. |
| `CoreClient.CreatedKey` | src/jira_api/core/client.py:248-250 | `Issue created but key not returned` exactly when the POST result has no truthy `key`. Otherwise the key takes its Python `str` form, which for a list or an object is its `repr`, and it is never empty. |
| `CoreClient.CreatedListKey` | src/jira_api/core/client.py:248-252 | A key that is a one-string list appears in the follow-up URL as `['<text>']`. |
| `CoreClient.JiraClient.CreateIssue` | src/jira_api/core/client.py:244-252 | The POST carries `{"fields": …}`. A failing POST or a missing key ends the operation after one request. Otherwise exactly one follow-up GET is made, for that key, and its result is returned. |
| `CoreClient.JiraClient.GetIssue` | src/jira_api/core/client.py:266 | One GET of `issue/<key>`. |
| `CoreClient.Iterate` | src/jira_api/core/client.py:413 | Iterating a list yields its items. A non-iterable value raises. |
| `CoreClient.FindType` | src/jira_api/core/client.py:413-415 | The search finds the first issue type whose lower-cased name equals the lower-cased query. A type without a name counts as `""`. An entry that cannot be read raises at its own position only when no earlier entry matched. |
| `CoreClient.TypeNames` | src/jira_api/core/client.py:417 | The list of available names, one per type, in the returned order. |
| `CoreClient.IssueTypeIdByNameFinds` | src/jira_api/core/client.py:411-421 | The lookup succeeds exactly when some name matches the query ignoring case. It then returns the id of the first match. Otherwise it fails with the validation error `Issue type '<q>' not found in project '<p>'. Available types: <names joined with ", ">`. |
| `CoreClient.FirstMatchId` | src/jira_api/core/client.py:413-415 | The id of the first matching type is returned, whatever follows it. |
| `CoreClient.NoMatchMessage` | src/jira_api/core/client.py:417-421 | When nothing matches, every name was readable, and the error lists them all. |
| `CoreClient.NoMatchAllNamed` | src/jira_api/core/client.py:413-417 | An unsuccessful search has read every name. |
| `CoreClient.FindTypeStopsAt` | src/jira_api/core/client.py:413-415 | The search returns the first position that matches. |
| `CoreClient.FindTypeFindsNone` | src/jira_api/core/client.py:413-415 | The search finds nothing when no position matches. |
| `CoreClient.BugExample` | tests/unit/test_client.py:34-39 | `Bug` and `bug` both give `10004` from the four example types. |
| `CoreClient.StoryExample` | tests/unit/test_client.py:41-42 | `STORY` gives `10001`. |
| `CoreClient.NotFoundExample` | tests/unit/test_client.py:44-67 | `Bug` among Epic, Story and Task fails, and the error lists `Epic, Story, Task`. |
| `CoreClient.MissingIssueTypes` | src/jira_api/core/client.py:395 | A project without `issueTypes` has the issue types `[]`, and any lookup then fails with an empty list of available types. |
| `CoreClient.JiraClient.GetProjectIssueTypes` | src/jira_api/core/client.py:394-395 | One GET of the project, then its `issueTypes`, or `[]` when that key is missing. |
| `CoreClient.JiraClient.GetIssueTypeIdByName` | src/jira_api/core/client.py:411-421 | One GET of the project, then the find-first loop. The result is the lookup function's, and client errors pass through. |
| `UserServices.FirstByEmail` | src/jira_api/services/user_service.py:43-47 | The result is the first user with a non-empty email equal to the query ignoring case. There is none exactly when no user has such an email. |
| `UserServices.ByEmailMatches` | src/jira_api/services/user_service.py:43-45 | A user that is returned came from the search, and its email is non-empty and equal to the query ignoring case. |
| `UserServices.ByEmailSingle` | src/jira_api/services/user_service.py:40-47 | With a one-result search, that user is returned exactly when their email matches. |
| `UserServices.UserService.constructor` | src/jira_api/services/user_service.py:12-18 | Wraps the given client. |
| `UserServices.UserService.GetUserById` | src/jira_api/services/user_service.py:29 | One user lookup by id; the client's answer is returned. |
| `UserServices.UserService.GetUserByEmail` | src/jira_api/services/user_service.py:40-47 | Exactly one search, for the email with `max_results` 1. The loop returns the result of `FirstByEmail`, and search errors pass through. |
| `UserServices.UserService.SearchUsers` | src/jira_api/services/user_service.py:59 | The arguments are passed to the client unchanged. |
| `UserServices.UserService.FindAssignableUsersForProjects` | src/jira_api/services/user_service.py:77 | The arguments are passed to the client unchanged. |
| `UserServices.UserService.GetUserByIdentifier` | src/jira_api/services/user_service.py:91-96 | When the lookup by id succeeds, its user is returned after one call. On any failure, the email lookup follows and its answer is returned. |
| `IssueServices.AssigneeFor` | src/jira_api/services/issue_service.py:53-57 | Without an email there is no assignee and no failure. The step fails exactly when an email is given and the search fails. |
| `IssueServices.AssigneeResolution` | src/jira_api/services/issue_service.py:53-57 | A resolved assignee is the account id of a searched user with that email. An email that matches nobody is silently left unassigned. |
| `IssueServices.CreateIssueCallsShape` | src/jira_api/services/issue_service.py:53-69 | With an email, the search comes first. The create call follows unless the search failed. It carries the arguments unchanged, no reporter, the resolved assignee, and `labels or []`. |
| `IssueServices.IssueService.constructor` | src/jira_api/services/issue_service.py:20-27 | Wraps the client; the user service uses the same client. |
| `IssueServices.IssueService.CreateIssue` | src/jira_api/services/issue_service.py:53-69 | The log grows by the calls of `CreateIssueCallsShape`. The result is the search failure, if any, and otherwise the client's answer. |
| `IssueServices.IssueService.CreateIssueByTypeName` | src/jira_api/services/issue_service.py:99-113 | The project comes first, then the type lookup with the name unchanged, then the create with the project's id. A failure of either step stops before any create. |
| `IssueServices.IssueService.GetIssue` | src/jira_api/services/issue_service.py:124 | One client call. |
| `IssueServices.SummaryUpdateFields` | src/jira_api/services/issue_service.py:133 | The summary helper's payload holds only `summary`, and only when the summary is non-empty. |
| `IssueServices.DescriptionUpdateFields` | src/jira_api/services/issue_service.py:143 | The description helper's payload holds only `description`. |
| `IssueServices.LabelsAddUpdateFields` | src/jira_api/services/issue_service.py:153 | The add-labels helper's payload holds only `add` operations. |
| `IssueServices.LabelsRemoveUpdateFields` | src/jira_api/services/issue_service.py:163 | The remove-labels helper's payload holds only `remove` operations. |
| `IssueServices.IssueService.UpdateIssueSummary` | src/jira_api/services/issue_service.py:133-134 | One update call with only the summary set. |
| `IssueServices.IssueService.UpdateIssueDescription` | src/jira_api/services/issue_service.py:143-144 | One update call with only the description set. |
| `IssueServices.IssueService.AddLabelsToIssue` | src/jira_api/services/issue_service.py:153-154 | One update call with only `labels_add` set. |
| `IssueServices.IssueService.RemoveLabelsFromIssue` | src/jira_api/services/issue_service.py:163-164 | One update call with only `labels_remove` set. |
| `IssueServices.IssueService.AssignIssueByEmail` | src/jira_api/services/issue_service.py:173-178 | An email that matches nobody raises `User with email '<e>' not found`, and no assign call is made. A match is assigned by its account id. |
| `IssueServices.IssueService.UnassignIssue` | src/jira_api/services/issue_service.py:186-187 | One assign call with no account id. |
| `IssueServices.IssueService.GetAvailableTransitions` | src/jira_api/services/issue_service.py:198 | One client call. |
| `IssueServices.FirstTransitionId` | src/jira_api/services/issue_service.py:220-224 | The id of the first transition whose name equals the query ignoring case. There is none exactly when no name matches. |
| `IssueServices.FirstTransitionWins` | src/jira_api/services/issue_service.py:221-224 | The first match is the one used, whatever follows it. |
| `IssueServices.TransitionNames` | src/jira_api/services/issue_service.py:227 | The available names, in order. |
| `IssueServices.IssueService.TransitionIssueByName` | src/jira_api/services/issue_service.py:218-239 | The loop with `break` computes `FirstTransitionId`. With no match, or an empty matching id, it raises `Transition '<q>' not found. Available transitions: <names>` and makes no transition call. Otherwise it makes exactly one transition call, with the comment and resolution unchanged. |
| `IssueServices.IssueService.TransitionIssueById` | src/jira_api/services/issue_service.py:256-262 | One transition call with the arguments unchanged. |
| `FakeJira.StopAtFirstFailure` | src/jira_api/server.py:224-235 | Writes that raise end the sequence: the writes made are a prefix of the sequence, every one but the last succeeds, and the last fails unless all were made. The outcome is success exactly when every write succeeds, and otherwise the last write's error. |
| `FakeJira.StopAtFailureAppend` | src/jira_api/server.py:224-235 | Of two sequences of writes run one after the other, the second runs only when the first raised nothing. |
| `FakeJira.SingleWrite` | src/jira_api/services/issue_service.py:126-134 | A single write is made, and its answer is the outcome. |
| `IssueServices.OneFieldUpdates` | src/jira_api/services/issue_service.py:126-164 | Each of the four one-field helpers sends an update with exactly one field set. |
| `IssueServices.UpdateCallsOneFieldEach` | src/jira_api/server.py:224-231 | The update sequence has one call per non-empty part, each setting one field. |
| `IssueServices.WriteStep` | src/jira_api/server.py:224-231 | One write followed by the rest: a failing write ends the sequence with its failure, and a succeeding one runs the rest. |
| `IssueServices.ApplyUpdate` | src/jira_api/server.py:224-231 | The update parts are sent in order until one fails. The log grows by exactly those calls, and the result is the first failure, or success when none fails. |
| `IssueServices.ApplySummaryChange` | src/jira_api/server.py:224-225 | The summary call is sent only for a truthy summary; the log grows by it and its answer is the result. |
| `IssueServices.ApplyLabelChanges` | src/jira_api/server.py:227-231 | The add-labels and remove-labels calls are sent in order until one fails, with the same log and result as `ApplyUpdate`. |
| `IssueServices.LaterWriteFailureStops` | src/jira_api/server.py:224-231 | When the summary is written and the add-labels call fails, the log holds exactly those two calls and the result is that failure; the remove-labels call is never sent. |
| `ProjectServices.VersionsWith` | src/jira_api/services/project_service.py:51-54 | Every kept version has the requested `released` flag, and every version with that flag is kept. |
| `ProjectServices.VersionsWithKeepsOrder` | src/jira_api/services/project_service.py:51-54 | The filtered list keeps the fetched order. |
| `ProjectServices.VersionsWithAppend` | src/jira_api/services/project_service.py:51-54 | Filtering distributes over concatenation. |
| `ProjectServices.VersionsWithCounts` | src/jira_api/services/project_service.py:51-54 | Each version occurs as often as in the fetched list when it has the requested flag, and not at all otherwise. |
| `ProjectServices.VersionsPartition` | src/jira_api/services/project_service.py:51-54 | The released and unreleased lists partition the fetched list, in both length and multiset. |
| `ProjectServices.FilterNoneIsIdentity` | src/jira_api/services/project_service.py:49-54 | Without a filter the list is unchanged; `True` and `False` select by flag. |
| `ProjectServices.VersionNamed` | src/jira_api/services/project_service.py:108-112 | The first version whose name is exactly equal, case-sensitive. The result is `None` exactly when no name is equal. |
| `ProjectServices.ProjectService.constructor` | src/jira_api/services/project_service.py:12-18 | Wraps the given client. |
| `ProjectServices.ProjectService.GetProject` | src/jira_api/services/project_service.py:29 | One client call. |
| `ProjectServices.ProjectService.GetProjectVersions` | src/jira_api/services/project_service.py:47-54 | One fetch, then the filter. Fetch errors pass through. |
| `ProjectServices.ProjectService.CreateVersion` | src/jira_api/services/project_service.py:81-94 | The project is fetched first; when that fails, nothing else is sent. Then one create call follows with `project_id` the project's numeric id and the other arguments unchanged. `released` and `archived` default to false. |
| `ProjectServices.ProjectService.GetVersionByName` | src/jira_api/services/project_service.py:106-112 | One fetch, then the find-first loop. It returns the result of `VersionNamed`. |
| `ProjectServices.ProjectService.GetReleasedVersions` | src/jira_api/services/project_service.py:123 | The filter with `True`. |
| `ProjectServices.ProjectService.GetUnreleasedVersions` | src/jira_api/services/project_service.py:134 | The filter with `False`. |
| `ProjectServices.ProjectService.GetIssueTypes` | src/jira_api/services/project_service.py:142 | One client call. |
| `SdkClient.AuthFor` | src/jira_api/sdk/client.py:41-43 | Credentials exist exactly for a non-empty API key. The username is the key and the password is empty. |
| `SdkClient.JiraSdkClient.constructor` | src/jira_api/sdk/client.py:34-43 | `/` is appended when missing, with no scheme check, and the credentials are stored. |
| `SdkClient.SdkSuccess` | src/jira_api/sdk/client.py:98-117 | The response is accepted exactly for a status below 400 with a parseable body, or for 204. The value is `{}` for 204 or an empty body, and the parsed JSON otherwise. |
| `SdkClient.ClientsAgreeOnSuccess` | src/jira_api/sdk/client.py:113-117 | The SDK and the core client accept the same exchanges and return the same values. |
| `SdkClient.SdkKeepsStatus` | src/jira_api/sdk/client.py:98-111 | A status of 400 or more gives an SDKError carrying that exact status. |
| `SdkClient.SdkDetailMessage` | src/jira_api/sdk/client.py:100-111 | With a parsed `detail`, that value is the message and the parsed body is the response data. |
| `SdkClient.SdkDefaultMessage` | src/jira_api/sdk/client.py:98-111 | Without a `detail`, the message is `HTTP <code>`. The response data is the parsed body when truthy, and `{}` otherwise. |
| `SdkClient.SdkTransportFailure` | src/jira_api/sdk/client.py:119-120 | A transport failure gives `Request failed: …` with no status, rendered as `SDK Error: …`. |
| `SdkClient.SdkAndCoreOnServerErrors` | src/jira_api/sdk/client.py:98-111 | For 5xx the SDK keeps the real code where the core client reports 500. |
| `SdkClient.JiraSdkClient.MakeRequest` | src/jira_api/sdk/client.py:87-120 | One request to the base URL plus the endpoint; the result is the classification above. |
| `SdkClient.TransitionBodyReads` | src/jira_api/sdk/client.py:262-266 | All three keys are always present, in order, with `null` for an absent comment or resolution. |
| `SdkClient.JiraSdkClient.TransitionIssue` | src/jira_api/sdk/client.py:262-267 | One POST carrying that body. |
| `SdkClient.VersionParamsReads` | src/jira_api/sdk/client.py:299-301 | `released` is sent exactly when it is not `None`. `false` is sent too. |
| `SdkClient.JiraSdkClient.GetProjectVersions` | src/jira_api/sdk/client.py:299-303 | One GET with those parameters. |
| `SdkClient.VersionBodyReads` | src/jira_api/sdk/client.py:323-325 | `name` is always sent; `description` only when it is non-empty. |
| `SdkClient.JiraSdkClient.CreateProjectVersion` | src/jira_api/sdk/client.py:323-327 | One POST carrying that body. |
| `SdkClient.TypeNameBodyReads` | src/jira_api/sdk/client.py:367-374 | All six keys are present, in order. A `labels` of `None` is sent as `[]`. |
| `SdkClient.JiraSdkClient.CreateIssueByTypeName` | src/jira_api/sdk/client.py:367-375 | One POST carrying that body. |
| `SdkClient.ConvenienceDumpReads` | src/jira_api/sdk/client.py:404-411 | The record the convenience methods build, dumped without unset fields. It has six keys; priority and reporter are never present. |
| `SdkClient.ConvenienceIssues` | src/jira_api/sdk/client.py:404-441 | Bug and task differ only in the issue type, `10004` against `10003`. A `labels` of `None` becomes `[]`. |
| `SdkClient.JiraSdkClient.CreateIssue` | src/jira_api/sdk/client.py:179-180 | One POST of the dumped record. |
| `SdkClient.JiraSdkClient.CreateBug` | src/jira_api/sdk/client.py:404-412 | One POST of a Bug-type record. |
| `SdkClient.JiraSdkClient.CreateTask` | src/jira_api/sdk/client.py:434-442 | One POST of a Task-type record. |
| `Server.VerifyApiKey` | src/jira_api/server.py:94-125 | The check either allows the request or fails it with 401. |
| `Server.ApiKeyDecision` | src/jira_api/server.py:106-125 | Access is allowed exactly when no key is configured (`None` or `""`) or the username equals the key. Missing credentials give `Authentication required`; a wrong username gives `Invalid API key`. |
| `Server.PasswordIgnored` | src/jira_api/server.py:117-118 | The password never matters. |
| `Server.ReceivedCredentials` | src/jira_api/server.py:28 | No credentials are read as none. Credentials that are not ASCII are refused with 401 `Invalid authentication credentials`. Otherwise `user:password` is split at its first colon: the username holds no colon and the two parts rejoin to the sent text. |
| `Server.SdkClientAuthenticates` | src/jira_api/server.py:94-125 | An SDK client's credentials pass the check exactly when its key (if non-empty) is ASCII, and the server has no key or the client's key is non-empty and its part before the first colon equals the server's key. |
| `Server.SdkClientWithPlainKey` | src/jira_api/server.py:94-125 | For ASCII keys without a colon, an SDK client passes exactly when the server has no key or the two keys are equal. |
| `Server.ColonKeyLocksOutSdk` | src/jira_api/server.py:94-125 | When the shared key holds a colon, an SDK client configured with that same key is refused with `Invalid API key`. |
| `Server.ToHttpError` | src/jira_api/server.py:150 | The status is the error's code when truthy, and 400 otherwise. The detail is the error's string. |
| `Server.Respond` | src/jira_api/server.py:149-150 | Success gives the value. A JiraAPIError gives its HTTP error. Any other exception is not handled. |
| `Server.UpstreamStatus` | src/jira_api/server.py:150 | A classifier error reaches the server's client as: 400 for transport and parse errors, 500 for every 5xx, and the upstream code otherwise. |
| `Server.PatchIgnoresDescriptionAndPriority` | src/jira_api/server.py:224-231 | The update calls of a PATCH do not depend on `description` or `priority_id`. |
| `Server.UpdateIssue` | src/jira_api/server.py:213-235 | A failed key check makes no call. Otherwise the summary, add-labels and remove-labels calls are sent in that order, each only when its part is non-empty. The log ends with the first call that fails, and that failure is mapped to HTTP. When none fails the answer is `Issue <key> updated successfully`. |
| `Server.UserAnswer` | src/jira_api/server.py:164-170 | A missing user gives 404 `User '<id>' not found`. A user is answered exactly when one was found. |
| `Server.UserNotFoundOnlyWhenMissing` | src/jira_api/server.py:164-172 | A JiraAPIError is never reported as the 404 not-found detail. |
| `Server.GetUser` | src/jira_api/server.py:153-172 | The key check comes first; then the lookup by id, with the email lookup on failure. |
| `Server.CreateDropsAccounts` | src/jira_api/server.py:186-194 | The assignee and reporter ids of the request never reach the create call. |
| `Server.CreateIssue` | src/jira_api/server.py:177-196 | The key check comes first; then exactly one create call, without assignee and reporter. |
| `Cli.LabelListPieces` | src/jira_api/cli.py:180 | Only an absent or empty option gives no labels. Otherwise there is one label per comma-separated piece, empty pieces included. Each label holds no comma and has no surrounding space. |
| `Cli.LabelListEmpty` | src/jira_api/cli.py:180 | The label list is empty exactly when the option is absent or empty. |
| `Cli.LabelListRoundTrip` | src/jira_api/cli.py:180 | Labels that hold no comma and no surrounding space, joined with commas, parse back to themselves. |
| `Cli.Truncated` | src/jira_api/cli.py:255 | A description up to 50 characters is shown whole. A longer one shows its first 50 characters followed by `...`. |
| `Cli.TruncatedBounds` | src/jira_api/cli.py:255 | A cell is never longer than 53 characters and always starts like the description. |
| `Cli.Failed` | src/jira_api/cli.py:194-196 | A JiraAPIError gives exit code 1 with `Error: <error>`. Other exceptions are not caught. |
| `Cli.UpdateCommandSteps` | src/jira_api/cli.py:282-294 | The update calls number one per given option: summary, then labels to add, then labels to remove. There are none exactly when all three options are empty. |
| `Cli.UpdateCommand` | src/jira_api/cli.py:266-298 | With no option given, the command exits with code 1 and makes no call. Otherwise it sends the calls of `UpdateCommandSteps` in order. The log ends with the first call that fails, and that failure becomes exit code 1; when none fails the command completes. |
| `Cli.CreateCommand` | src/jira_api/cli.py:162-196 | The project is fetched first; a failure there ends the command. Then the issue is created with the project's id and the parsed labels. |

## Left out

- Issue and IssueFields decoding (models/issue.py, lines 1-65 and 219-225): issues are kept as their JSON. The only other source, a test, builds issues in a shape these records reject.
- The datetime fields of versions are read as strings. Pydantic's datetime parsing and its lax coercions are not modelled: strict JSON types are required; a numeric string is not read as an int.
- Python runtime errors (TypeError, KeyError, AttributeError) on wrongly shaped JSON: all appear as one `Malformed` failure, without their messages.
- `str.lower()` and `str.strip()` cover ASCII only: Unicode case folding and Unicode whitespace are not modelled.
- `urljoin` appears only as the plain concatenation the code relies on: each base URL ends in `/`, and each endpoint is relative.
- Duplicate keys in JSON objects: Python's `json.loads` keeps the last value given for a repeated key, while the model reads the first occurrence.
- I/O is not modelled: httpx, connection lifetime, timeouts, logging, environment and configuration files, FastAPI routing, CORS, typer prompts and rich tables.
- The client is a parameter. The transport's answer is a parameter of each JiraClient and SDK method. The services talk to a client that answers from canned replies.
- ProjectServices.ProjectService.CreateVersion: requires the project id to be a string of digits. Ids that make `int()` raise are not modelled, and neither are ids that `int()` accepts although they are not plain digits: surrounding whitespace (`" 12"`), a sign (`"+12"`, `"-3"`) or digit-group underscores (`"1_000"`).
- SdkClient.JiraSdkClient.CreateIssue: dumps only the six fields that `create_bug` and `create_task` set. Pydantic's `exclude_unset` for other records is not modelled.
- The SDK methods `health_check`, `search_users`, `get_user`, `get_issue`, `update_issue`, `assign_issue`, `get_issue_transitions`, `get_project` and `get_project_issue_types` are not modelled. Each is one request whose body or parameters hold no decision, and its answer is decoded by the record models above.
- Server handlers other than `PATCH /issues/{key}`, `GET /users/{identifier}` and `POST /issues` are not modelled: each delegates to one service call and maps errors as `Server.Respond` does.
- The 500 answer when the server cannot build its client is not modelled (configuration).
- CLI commands other than `issue create`, `issue update` and `issue list-types` are not modelled, and neither are their printed output and tables.
- Cli.UpdateCommand: "exits before any client is created" is stated as "makes no client call".
- The `to` and `has_screen` fields of IssueTransition are not modelled: only the id and the name take part in a decision.
- tests/unit/test_issue_service.py:70 expects `labels=[]` to be passed on by `create_issue_by_type_name`. The code passes `labels` through unchanged, and `create_issue` turns `None` into `[]` afterwards; the model follows the code.
- CoreClient.IssueTypeIdByNameFinds: a matching issue type whose `id` is not a string is reported as `Malformed`; the source returns that value unchanged. The model's issue-type ids are strings throughout.
- CoreClient.JiraClient.GetIssueTypeIdByName: the same non-string `id` case as `IssueTypeIdByNameFinds`.
- Errors.Repr: Python's `repr` of a string is modelled with single quotes and backslash escapes of `\` and `'` only. Its switch to double quotes for a string holding `'` and no `"`, and its escapes of control and non-printable characters, are not modelled.
- Server.ReceivedCredentials: the Basic-credential decoding of httpx and FastAPI's `HTTPBasic` is stated as its effect (ASCII check, split at the first colon); the base64 encoding itself and that library code are not part of this model.
- config.py is not part of this model.
