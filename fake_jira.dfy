/**
 * The Jira client as the services see it: every method the services call,
 * answered from canned replies (the way the unit tests configure a mock
 * client) and recorded, with its arguments, in the `calls` log. The services'
 * ordering, fail-fast and pass-through properties are statements about that
 * log.
 */
module FakeJira {
  import opened Wrappers
  import opened Json
  import opened Errors
  import opened IssueModels
  import opened UserModels
  import opened ProjectModels

  /** An available transition (IssueTransition); its target status and screen
      flag are not part of this model. */
  datatype Transition = Transition(id: string, name: string)

  /** One client call with the arguments it received. */
  datatype Call =
    | GetUser(accountId: string)
    | SearchUsers(query: string, maxResults: int)
    | FindAssignableUsers(projectKeys: seq<string>, filter: Option<string>, maxResults: int)
    | GetIssue(issueKey: string)
    | CreateIssue(data: IssueCreate)
    | GetProject(projectKey: string)
    | GetIssueTypeIdByName(projectKey: string, issueTypeName: string)
    | UpdateIssue(issueKey: string, update: IssueUpdate)
    | AssignIssue(issueKey: string, assignee: Option<string>)
    | GetIssueTransitions(issueKey: string)
    | TransitionIssue(issueKey: string, request: IssueTransitionRequest)
    | GetProjectVersions(projectKey: string)
    | CreateProjectVersion(version: ProjectVersionCreate)
    | GetIssueTypes

  /** What each client method answers: the reading methods answer the same
      value or error whatever their arguments; a write call (update, assign,
      transition) raises the error `failingWrites` holds for that very call
      and succeeds when it holds none, so one write of a sequence can succeed
      and a later one fail. Issues are kept as their JSON. */
  datatype Replies = Replies(
    user: Result<User, Failure>,
    users: Result<seq<User>, Failure>,
    issue: Result<Json, Failure>,
    project: Result<Project, Failure>,
    issueTypeId: Result<string, Failure>,
    transitions: Result<seq<Transition>, Failure>,
    versions: Result<seq<ProjectVersion>, Failure>,
    createdVersion: Result<ProjectVersion, Failure>,
    issueTypes: Result<seq<Json>, Failure>,
    failingWrites: map<Call, Failure>)
  {
    /** The answer to the write call `c`. */
    function Answer(c: Call): Result<(), Failure> {
      if c in failingWrites then Failure(failingWrites[c]) else Success(())
    }
  }

  /** The calls a sequence of writes actually makes when each one that
      raises ends the sequence (see `StopAtFirstFailure`). */
  function StopAtFailure(calls: seq<Call>, replies: Replies): seq<Call> {
    if calls == [] then []
    else if replies.Answer(calls[0]).Failure? then [calls[0]]
    else [calls[0]] + StopAtFailure(calls[1..], replies)
  }

  /** What such a sequence ends with (see `StopAtFirstFailure`). */
  function FirstFailure(calls: seq<Call>, replies: Replies): Result<(), Failure> {
    if calls == [] then Success(())
    else if replies.Answer(calls[0]).Failure? then replies.Answer(calls[0])
    else FirstFailure(calls[1..], replies)
  }

  /** The writes made are a prefix of the sequence: every write up to and
      including the first that raises, all of them when none does. The
      outcome is success exactly when no write raises, and otherwise the
      error of the last write made. */
  lemma {:induction false} StopAtFirstFailure(calls: seq<Call>, replies: Replies)
    ensures StopAtFailure(calls, replies) <= calls
    ensures var made := StopAtFailure(calls, replies);
            forall i :: 0 <= i < |made| - 1 ==> replies.Answer(made[i]).Success?
    ensures var made := StopAtFailure(calls, replies);
            made != calls ==> made != [] && replies.Answer(made[|made| - 1]).Failure?
    ensures FirstFailure(calls, replies).Success? <==> forall i :: 0 <= i < |calls| ==> replies.Answer(calls[i]).Success?
    ensures FirstFailure(calls, replies).Success? ==> StopAtFailure(calls, replies) == calls
    ensures var made := StopAtFailure(calls, replies);
            FirstFailure(calls, replies).Failure? ==> made != [] && FirstFailure(calls, replies) == replies.Answer(made[|made| - 1])
  {
    if calls != [] && replies.Answer(calls[0]).Success? {
      StopAtFirstFailure(calls[1..], replies);
      var rest := StopAtFailure(calls[1..], replies);
      assert StopAtFailure(calls, replies) == [calls[0]] + rest;
      assert forall i :: 1 <= i < |calls| ==> calls[i] == calls[1..][i - 1];
      assert forall i :: 1 <= i < |rest| + 1 ==> ([calls[0]] + rest)[i] == rest[i - 1];
      if rest == calls[1..] {
        assert [calls[0]] + calls[1..] == calls;
      }
    }
  }

  /** Running two sequences of writes one after the other: the second runs
      only when the first raised nothing. */
  lemma {:induction false} StopAtFailureAppend(a: seq<Call>, b: seq<Call>, replies: Replies)
    ensures StopAtFailure(a + b, replies) ==
              if FirstFailure(a, replies).Failure? then StopAtFailure(a, replies) else a + StopAtFailure(b, replies)
    ensures FirstFailure(a + b, replies) ==
              if FirstFailure(a, replies).Failure? then FirstFailure(a, replies) else FirstFailure(b, replies)
  {
    if a == [] {
      assert a + b == b;
    } else {
      assert (a + b)[0] == a[0] && (a + b)[1..] == a[1..] + b;
      StopAtFailureAppend(a[1..], b, replies);
      if replies.Answer(a[0]).Success? {
        assert [a[0]] + a[1..] == a;
      }
    }
  }

  /** A single write is made, and its answer is the outcome. */
  lemma SingleWrite(c: Call, replies: Replies)
    ensures StopAtFailure([c], replies) == [c]
    ensures FirstFailure([c], replies) == replies.Answer(c)
  {
    assert [c][1..] == [];
  }

  class FakeClient {
    const replies: Replies
    /** Every call made so far, oldest first. */
    var calls: seq<Call>

    constructor (replies: Replies)
      ensures this.replies == replies && calls == []
    {
      this.replies := replies;
      calls := [];
    }

    method GetUser(accountId: string) returns (r: Result<User, Failure>)
      modifies this`calls
      ensures calls == old(calls) + [Call.GetUser(accountId)] && r == replies.user
    {
      calls := calls + [Call.GetUser(accountId)];
      r := replies.user;
    }

    method SearchUsers(query: string, maxResults: int) returns (r: Result<seq<User>, Failure>)
      modifies this`calls
      ensures calls == old(calls) + [Call.SearchUsers(query, maxResults)] && r == replies.users
    {
      calls := calls + [Call.SearchUsers(query, maxResults)];
      r := replies.users;
    }

    method FindAssignableUsers(projectKeys: seq<string>, query: Option<string>, maxResults: int)
      returns (r: Result<seq<User>, Failure>)
      modifies this`calls
      ensures calls == old(calls) + [Call.FindAssignableUsers(projectKeys, query, maxResults)] && r == replies.users
    {
      calls := calls + [Call.FindAssignableUsers(projectKeys, query, maxResults)];
      r := replies.users;
    }

    method GetIssue(issueKey: string) returns (r: Result<Json, Failure>)
      modifies this`calls
      ensures calls == old(calls) + [Call.GetIssue(issueKey)] && r == replies.issue
    {
      calls := calls + [Call.GetIssue(issueKey)];
      r := replies.issue;
    }

    method CreateIssue(data: IssueCreate) returns (r: Result<Json, Failure>)
      modifies this`calls
      ensures calls == old(calls) + [Call.CreateIssue(data)] && r == replies.issue
    {
      calls := calls + [Call.CreateIssue(data)];
      r := replies.issue;
    }

    method GetProject(projectKey: string) returns (r: Result<Project, Failure>)
      modifies this`calls
      ensures calls == old(calls) + [Call.GetProject(projectKey)] && r == replies.project
    {
      calls := calls + [Call.GetProject(projectKey)];
      r := replies.project;
    }

    method GetIssueTypeIdByName(projectKey: string, issueTypeName: string) returns (r: Result<string, Failure>)
      modifies this`calls
      ensures calls == old(calls) + [Call.GetIssueTypeIdByName(projectKey, issueTypeName)] && r == replies.issueTypeId
    {
      calls := calls + [Call.GetIssueTypeIdByName(projectKey, issueTypeName)];
      r := replies.issueTypeId;
    }

    method UpdateIssue(issueKey: string, update: IssueUpdate) returns (r: Result<(), Failure>)
      modifies this`calls
      ensures calls == old(calls) + [Call.UpdateIssue(issueKey, update)] && r == replies.Answer(Call.UpdateIssue(issueKey, update))
    {
      calls := calls + [Call.UpdateIssue(issueKey, update)];
      r := replies.Answer(Call.UpdateIssue(issueKey, update));
    }

    /** `assign_issue(key, IssueAssignment(account_id=...))`, logged by the
        assignment's account id. */
    method AssignIssue(issueKey: string, accountId: Option<string>) returns (r: Result<(), Failure>)
      modifies this`calls
      ensures calls == old(calls) + [Call.AssignIssue(issueKey, accountId)] && r == replies.Answer(Call.AssignIssue(issueKey, accountId))
    {
      calls := calls + [Call.AssignIssue(issueKey, accountId)];
      r := replies.Answer(Call.AssignIssue(issueKey, accountId));
    }

    method GetIssueTransitions(issueKey: string) returns (r: Result<seq<Transition>, Failure>)
      modifies this`calls
      ensures calls == old(calls) + [Call.GetIssueTransitions(issueKey)] && r == replies.transitions
    {
      calls := calls + [Call.GetIssueTransitions(issueKey)];
      r := replies.transitions;
    }

    method TransitionIssue(issueKey: string, request: IssueTransitionRequest) returns (r: Result<(), Failure>)
      modifies this`calls
      ensures calls == old(calls) + [Call.TransitionIssue(issueKey, request)] && r == replies.Answer(Call.TransitionIssue(issueKey, request))
    {
      calls := calls + [Call.TransitionIssue(issueKey, request)];
      r := replies.Answer(Call.TransitionIssue(issueKey, request));
    }

    method GetProjectVersions(projectKey: string) returns (r: Result<seq<ProjectVersion>, Failure>)
      modifies this`calls
      ensures calls == old(calls) + [Call.GetProjectVersions(projectKey)] && r == replies.versions
    {
      calls := calls + [Call.GetProjectVersions(projectKey)];
      r := replies.versions;
    }

    method CreateProjectVersion(version: ProjectVersionCreate) returns (r: Result<ProjectVersion, Failure>)
      modifies this`calls
      ensures calls == old(calls) + [Call.CreateProjectVersion(version)] && r == replies.createdVersion
    {
      calls := calls + [Call.CreateProjectVersion(version)];
      r := replies.createdVersion;
    }

    method GetIssueTypes() returns (r: Result<seq<Json>, Failure>)
      modifies this`calls
      ensures calls == old(calls) + [Call.GetIssueTypes] && r == replies.issueTypes
    {
      calls := calls + [Call.GetIssueTypes];
      r := replies.issueTypes;
    }
  }
}
