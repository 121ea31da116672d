/**
 * services/issue_service.py: the issue operations as call sequences on the
 * Jira client. What each method sends is stated in terms of the client's
 * canned replies, so ordering ("project, then type, then create"), fail-fast
 * ("no create, assign or transition call once a look-up fails") and
 * pass-through are properties of the `calls` log.
 */
module IssueServices {
  import opened Wrappers
  import opened Text
  import opened Json
  import opened Errors
  import opened IssueModels
  import opened UserModels
  import opened ProjectModels
  import opened FakeJira
  import opened UserServices

  // ---------------------------------------------------------------------
  // create_issue

  /** The assignee's account id `create_issue` puts in the payload, given
      the answer of the one user search it makes for a truthy email. */
  function AssigneeFor(assigneeEmail: Option<string>, found: Result<seq<User>, Failure>): (r: Result<Option<string>, Failure>)
    ensures !NonEmpty(assigneeEmail) ==> r == Success(None)
    ensures r.Failure? <==> NonEmpty(assigneeEmail) && found.Failure?
  {
    if !NonEmpty(assigneeEmail) then Success(None)
    else match ByEmail(found, assigneeEmail.value)
      case Failure(e) => Failure(e)
      case Success(None) => Success(None)
      case Success(Some(u)) => Success(Some(u.accountId))
  }

  /** A resolved assignee is the account of a user whose email is the one
      given, ignoring case; an email no user has leaves the issue unassigned
      without an error. */
  lemma AssigneeResolution(assigneeEmail: Option<string>, users: seq<User>)
    requires NonEmpty(assigneeEmail)
    ensures AssigneeFor(assigneeEmail, Success(users)).Success?
    ensures AssigneeFor(assigneeEmail, Success(users)).value.Some? ==>
              exists u :: u in users && HasEmail(u, assigneeEmail.value)
                          && u.accountId == AssigneeFor(assigneeEmail, Success(users)).value.value
    ensures AssigneeFor(assigneeEmail, Success(users)).value.None? <==>
              forall u :: u in users ==> !HasEmail(u, assigneeEmail.value)
  {
    var found := FirstByEmail(users, assigneeEmail.value);
    if found.Some? {
      var k :| 0 <= k < |users| && users[k] == found.value;
    } else {
      forall u | u in users ensures !HasEmail(u, assigneeEmail.value) {
        var k :| 0 <= k < |users| && users[k] == u;
      }
    }
  }

  /** The IssueCreate record `create_issue` builds; it never sets a reporter. */
  function NewIssue(projectId: string, summary: string, issueTypeId: string, description: Option<string>,
                    priorityId: Option<string>, assignee: Option<string>, labels: Option<seq<string>>): IssueCreate {
    IssueCreate(projectId, summary, description, issueTypeId, priorityId, assignee, None, OrEmpty(labels))
  }

  /** The search `create_issue` makes: one, with at most one result, and
      only for a truthy email. */
  function AssigneeSearch(assigneeEmail: Option<string>): seq<Call> {
    if NonEmpty(assigneeEmail) then [Call.SearchUsers(assigneeEmail.value, 1)] else []
  }

  /** Every call `create_issue` makes, in order. */
  function CreateIssueCalls(projectId: string, summary: string, issueTypeId: string, description: Option<string>,
                            priorityId: Option<string>, assigneeEmail: Option<string>, labels: Option<seq<string>>,
                            found: Result<seq<User>, Failure>): seq<Call> {
    AssigneeSearch(assigneeEmail)
    + match AssigneeFor(assigneeEmail, found)
      case Failure(_) => []
      case Success(a) => [Call.CreateIssue(NewIssue(projectId, summary, issueTypeId, description, priorityId, a, labels))]
  }

  /** `create_issue` searches at most once, only for a truthy email, and
      then creates exactly once unless that search raised; the created record
      carries the arguments unchanged and `labels` None as []. */
  lemma CreateIssueCallsShape(projectId: string, summary: string, issueTypeId: string, description: Option<string>,
                              priorityId: Option<string>, assigneeEmail: Option<string>, labels: Option<seq<string>>,
                              found: Result<seq<User>, Failure>)
    ensures var cs := CreateIssueCalls(projectId, summary, issueTypeId, description, priorityId, assigneeEmail, labels, found);
            var searched := if NonEmpty(assigneeEmail) then 1 else 0;
            (|cs| == searched + 1 <==> !(NonEmpty(assigneeEmail) && found.Failure?))
            && |cs| >= searched
            && (NonEmpty(assigneeEmail) ==> cs[0] == Call.SearchUsers(assigneeEmail.value, 1))
            && (|cs| == searched + 1 ==>
                  cs[searched].CreateIssue?
                  && var d := cs[searched].data;
                     d.projectId == projectId && d.summary == summary && d.issueTypeId == issueTypeId
                     && d.description == description && d.priorityId == priorityId && d.reporterAccountId.None?
                     && d.labels == (if labels.Some? then labels.value else [])
                     && d.assigneeAccountId == AssigneeFor(assigneeEmail, found).value)
  {
  }

  // ---------------------------------------------------------------------
  // Update helpers

  /** The one-field IssueUpdate records of the update helpers. */
  function SummaryUpdate(summary: string): IssueUpdate { IssueUpdate(Some(summary), None, [], [], None) }
  function DescriptionUpdate(description: string): IssueUpdate { IssueUpdate(None, Some(description), [], [], None) }
  function LabelsAddUpdate(labels: seq<string>): IssueUpdate { IssueUpdate(None, None, labels, [], None) }
  function LabelsRemoveUpdate(labels: seq<string>): IssueUpdate { IssueUpdate(None, None, [], labels, None) }

  /** Each helper's payload holds the one key it sets, and only when what
      it sets is non-empty. */
  lemma SummaryUpdateFields(summary: string)
    ensures UpdateFields(SummaryUpdate(summary)) == if summary != "" then [("summary", SetText(summary))] else []
  {
    assert UpdateLabelOps(SummaryUpdate(summary)) == [];
  }

  lemma DescriptionUpdateFields(description: string)
    ensures UpdateFields(DescriptionUpdate(description))
            == if description != "" then [("description", SetDoc(description))] else []
  {
    assert UpdateLabelOps(DescriptionUpdate(description)) == [];
  }

  lemma LabelsAddUpdateFields(labels: seq<string>)
    ensures UpdateFields(LabelsAddUpdate(labels))
            == if labels != [] then [("labels", JArr(LabelOperations("add", labels)))] else []
  {
    var ops := UpdateLabelOps(LabelsAddUpdate(labels));
    assert ops == LabelOperations("add", labels) + LabelOperations("remove", []);
    assert ops == LabelOperations("add", labels);
  }

  lemma LabelsRemoveUpdateFields(labels: seq<string>)
    ensures UpdateFields(LabelsRemoveUpdate(labels))
            == if labels != [] then [("labels", JArr(LabelOperations("remove", labels)))] else []
  {
    var ops := UpdateLabelOps(LabelsRemoveUpdate(labels));
    assert ops == LabelOperations("add", []) + LabelOperations("remove", labels);
    assert ops == LabelOperations("remove", labels);
  }

  // ---------------------------------------------------------------------
  // Assignment

  function UserNotFound(email: string): string {
    "User with email '" + email + "' not found"
  }

  // ---------------------------------------------------------------------
  // transition_issue_by_name

  /** The id of the first transition from position i on whose name matches
      the query ignoring case, None when none does. */
  function FirstTransitionId(transitions: seq<Transition>, name: string, i: nat): (r: Option<string>)
    requires i <= |transitions|
    decreases |transitions| - i
    ensures r.Some? ==> exists k :: i <= k < |transitions| && transitions[k].id == r.value
                                    && SameIgnoringCase(transitions[k].name, name)
                                    && forall j :: i <= j < k ==> !SameIgnoringCase(transitions[j].name, name)
    ensures r.None? <==> forall j :: i <= j < |transitions| ==> !SameIgnoringCase(transitions[j].name, name)
  {
    if i == |transitions| then None
    else if SameIgnoringCase(transitions[i].name, name) then Some(transitions[i].id)
    else FirstTransitionId(transitions, name, i + 1)
  }

  function TransitionNames(transitions: seq<Transition>): (names: seq<string>)
    ensures |names| == |transitions| && forall j :: 0 <= j < |transitions| ==> names[j] == transitions[j].name
  {
    seq(|transitions|, j requires 0 <= j < |transitions| => transitions[j].name)
  }

  function TransitionNotFound(name: string, transitions: seq<Transition>): string {
    "Transition '" + name + "' not found. Available transitions: " + Join(", ", TransitionNames(transitions))
  }

  /** The transition submitted is the first whose name matches; when a later
      one matches too, the earlier one still wins. */
  lemma FirstTransitionWins(transitions: seq<Transition>, name: string, k: nat)
    requires k < |transitions| && SameIgnoringCase(transitions[k].name, name)
    requires forall j :: 0 <= j < k ==> !SameIgnoringCase(transitions[j].name, name)
    ensures FirstTransitionId(transitions, name, 0) == Some(transitions[k].id)
  {
    var r := FirstTransitionId(transitions, name, 0);
    assert r.Some?;
    var m :| 0 <= m < |transitions| && transitions[m].id == r.value && SameIgnoringCase(transitions[m].name, name)
             && forall j :: 0 <= j < m ==> !SameIgnoringCase(transitions[j].name, name);
    assert m == k;
  }

  class IssueService {
    const client: FakeClient
    const userService: UserService

    constructor (client: FakeClient)
      ensures this.client == client && Valid()
    {
      this.client := client;
      userService := new UserService(client);
    }

    /** The user service looks users up through the same client. */
    predicate Valid() {
      userService.client == client
    }

    /** `create_issue`: resolves a truthy assignee email to an account id
        (silently unassigned when no user has that email) and creates. */
    method CreateIssue(projectId: string, summary: string, issueTypeId: string, description: Option<string> := None,
                       priorityId: Option<string> := None, assigneeEmail: Option<string> := None,
                       labels: Option<seq<string>> := None)
      returns (r: Result<Json, Failure>)
      requires Valid()
      modifies client`calls
      ensures client.calls == old(client.calls)
                + CreateIssueCalls(projectId, summary, issueTypeId, description, priorityId, assigneeEmail, labels, client.replies.users)
      ensures r == if AssigneeFor(assigneeEmail, client.replies.users).Failure?
                   then Failure(AssigneeFor(assigneeEmail, client.replies.users).error)
                   else client.replies.issue
    {
      var assigneeAccountId: Option<string> := None;
      if NonEmpty(assigneeEmail) {
        var assignee := userService.GetUserByEmail(assigneeEmail.value);
        if assignee.Failure? {
          return Failure(assignee.error);
        }
        if assignee.value.Some? {
          assigneeAccountId := Some(assignee.value.value.accountId);
        }
      }
      var issueData := NewIssue(projectId, summary, issueTypeId, description, priorityId, assigneeAccountId, labels);
      r := client.CreateIssue(issueData);
    }

    /** `create_issue_by_type_name`: the project, then the type id by the name
        as given, then `create_issue` with the other arguments unchanged; a
        failed look-up stops before anything is created. */
    method CreateIssueByTypeName(projectKey: string, summary: string, issueTypeName: string,
                                 description: Option<string> := None, priorityId: Option<string> := None,
                                 assigneeEmail: Option<string> := None, labels: Option<seq<string>> := None)
      returns (r: Result<Json, Failure>)
      requires Valid()
      modifies client`calls
      ensures var p := client.replies.project;
              var t := client.replies.issueTypeId;
              if p.Failure? then
                client.calls == old(client.calls) + [Call.GetProject(projectKey)] && r == Failure(p.error)
              else if t.Failure? then
                client.calls == old(client.calls) + [Call.GetProject(projectKey), Call.GetIssueTypeIdByName(projectKey, issueTypeName)]
                && r == Failure(t.error)
              else
                client.calls == old(client.calls) + [Call.GetProject(projectKey), Call.GetIssueTypeIdByName(projectKey, issueTypeName)]
                  + CreateIssueCalls(p.value.id, summary, t.value, description, priorityId, assigneeEmail, labels, client.replies.users)
                && r == if AssigneeFor(assigneeEmail, client.replies.users).Failure?
                        then Failure(AssigneeFor(assigneeEmail, client.replies.users).error)
                        else client.replies.issue
    {
      var project := client.GetProject(projectKey);
      if project.Failure? {
        return Failure(project.error);
      }
      var projectId := project.value.id;
      var issueTypeId := client.GetIssueTypeIdByName(projectKey, issueTypeName);
      if issueTypeId.Failure? {
        return Failure(issueTypeId.error);
      }
      r := CreateIssue(projectId, summary, issueTypeId.value, description, priorityId, assigneeEmail, labels);
    }

    method GetIssue(issueKey: string) returns (r: Result<Json, Failure>)
      modifies client`calls
      ensures client.calls == old(client.calls) + [Call.GetIssue(issueKey)] && r == client.replies.issue
    {
      r := client.GetIssue(issueKey);
    }

    method UpdateIssueSummary(issueKey: string, summary: string) returns (r: Result<(), Failure>)
      modifies client`calls
      ensures client.calls == old(client.calls) + [Call.UpdateIssue(issueKey, SummaryUpdate(summary))]
      ensures r == client.replies.Answer(Call.UpdateIssue(issueKey, SummaryUpdate(summary)))
    {
      var updateData := IssueUpdate(summary := Some(summary), description := None, labelsAdd := [], labelsRemove := [],
                                    priorityId := None);
      r := client.UpdateIssue(issueKey, updateData);
    }

    method UpdateIssueDescription(issueKey: string, description: string) returns (r: Result<(), Failure>)
      modifies client`calls
      ensures client.calls == old(client.calls) + [Call.UpdateIssue(issueKey, DescriptionUpdate(description))]
      ensures r == client.replies.Answer(Call.UpdateIssue(issueKey, DescriptionUpdate(description)))
    {
      var updateData := IssueUpdate(summary := None, description := Some(description), labelsAdd := [], labelsRemove := [],
                                    priorityId := None);
      r := client.UpdateIssue(issueKey, updateData);
    }

    method AddLabelsToIssue(issueKey: string, labels: seq<string>) returns (r: Result<(), Failure>)
      modifies client`calls
      ensures client.calls == old(client.calls) + [Call.UpdateIssue(issueKey, LabelsAddUpdate(labels))]
      ensures r == client.replies.Answer(Call.UpdateIssue(issueKey, LabelsAddUpdate(labels)))
    {
      var updateData := IssueUpdate(summary := None, description := None, labelsAdd := labels, labelsRemove := [],
                                    priorityId := None);
      r := client.UpdateIssue(issueKey, updateData);
    }

    method RemoveLabelsFromIssue(issueKey: string, labels: seq<string>) returns (r: Result<(), Failure>)
      modifies client`calls
      ensures client.calls == old(client.calls) + [Call.UpdateIssue(issueKey, LabelsRemoveUpdate(labels))]
      ensures r == client.replies.Answer(Call.UpdateIssue(issueKey, LabelsRemoveUpdate(labels)))
    {
      var updateData := IssueUpdate(summary := None, description := None, labelsAdd := [], labelsRemove := labels,
                                    priorityId := None);
      r := client.UpdateIssue(issueKey, updateData);
    }

    /** `assign_issue_by_email`: an email no user has raises ValueError and
        nothing is assigned. */
    method AssignIssueByEmail(issueKey: string, assigneeEmail: string) returns (r: Result<(), Failure>)
      requires Valid()
      modifies client`calls
      ensures var found := ByEmail(client.replies.users, assigneeEmail);
              match found
              case Failure(e) => client.calls == old(client.calls) + [Call.SearchUsers(assigneeEmail, 1)] && r == Failure(e)
              case Success(None) =>
                client.calls == old(client.calls) + [Call.SearchUsers(assigneeEmail, 1)]
                && r == Failure(ValueError(UserNotFound(assigneeEmail)))
              case Success(Some(u)) =>
                client.calls == old(client.calls) + [Call.SearchUsers(assigneeEmail, 1), Call.AssignIssue(issueKey, Some(u.accountId))]
                && r == client.replies.Answer(Call.AssignIssue(issueKey, Some(u.accountId)))
    {
      var assignee := userService.GetUserByEmail(assigneeEmail);
      if assignee.Failure? {
        return Failure(assignee.error);
      }
      if assignee.value.None? {
        return Failure(ValueError("User with email '" + assigneeEmail + "' not found"));
      }
      r := client.AssignIssue(issueKey, Some(assignee.value.value.accountId));
    }

    /** `unassign_issue`: an assignment with no account id, which the wire
        payload sends as `{"accountId": null}`. */
    method UnassignIssue(issueKey: string) returns (r: Result<(), Failure>)
      modifies client`calls
      ensures client.calls == old(client.calls) + [Call.AssignIssue(issueKey, None)]
              && r == client.replies.Answer(Call.AssignIssue(issueKey, None))
    {
      r := client.AssignIssue(issueKey, None);
    }

    method GetAvailableTransitions(issueKey: string) returns (r: Result<seq<Transition>, Failure>)
      modifies client`calls
      ensures client.calls == old(client.calls) + [Call.GetIssueTransitions(issueKey)] && r == client.replies.transitions
    {
      r := client.GetIssueTransitions(issueKey);
    }

    /** `transition_issue_by_name`: submits the first transition whose name
        matches ignoring case, exactly once, with comment and resolution
        unchanged; no match, or a matched empty id, raises ValueError and
        submits nothing. */
    method TransitionIssueByName(issueKey: string, transitionName: string, comment: Option<string> := None,
                                 resolutionName: Option<string> := None)
      returns (r: Result<(), Failure>)
      modifies client`calls
      ensures client.replies.transitions.Failure? ==>
                client.calls == old(client.calls) + [Call.GetIssueTransitions(issueKey)]
                && r == Failure(client.replies.transitions.error)
      ensures client.replies.transitions.Success? ==>
                var ts := client.replies.transitions.value;
                var id := FirstTransitionId(ts, transitionName, 0);
                if NonEmpty(id) then
                  client.calls == old(client.calls)
                    + [Call.GetIssueTransitions(issueKey),
                       Call.TransitionIssue(issueKey, IssueTransitionRequest(id.value, comment, resolutionName))]
                  && r == client.replies.Answer(Call.TransitionIssue(issueKey, IssueTransitionRequest(id.value, comment, resolutionName)))
                else
                  client.calls == old(client.calls) + [Call.GetIssueTransitions(issueKey)]
                  && r == Failure(ValueError(TransitionNotFound(transitionName, ts)))
    {
      var transitions := GetAvailableTransitions(issueKey);
      if transitions.Failure? {
        return Failure(transitions.error);
      }
      var ts := transitions.value;
      var transitionId: Option<string> := None;
      var i := 0;
      while i < |ts|
        invariant 0 <= i <= |ts|
        invariant transitionId.None? ==> FirstTransitionId(ts, transitionName, i) == FirstTransitionId(ts, transitionName, 0)
        invariant transitionId.Some? ==> transitionId == FirstTransitionId(ts, transitionName, 0)
        decreases |ts| - i
      {
        if Lower(ts[i].name) == Lower(transitionName) {
          transitionId := Some(ts[i].id);
          break;
        }
        i := i + 1;
      }
      if !(transitionId.Some? && transitionId.value != "") {
        var availableNames := TransitionNames(ts);
        return Failure(ValueError("Transition '" + transitionName + "' not found. Available transitions: "
                                  + Join(", ", availableNames)));
      }
      var transitionRequest := IssueTransitionRequest(transitionId.value, comment, resolutionName);
      r := client.TransitionIssue(issueKey, transitionRequest);
    }

    /** `transition_issue_by_id`: the request built from the arguments,
        submitted without any look-up. */
    method TransitionIssueById(issueKey: string, transitionId: string, comment: Option<string> := None,
                               resolutionName: Option<string> := None)
      returns (r: Result<(), Failure>)
      modifies client`calls
      ensures client.calls == old(client.calls)
                + [Call.TransitionIssue(issueKey, IssueTransitionRequest(transitionId, comment, resolutionName))]
      ensures r == client.replies.Answer(Call.TransitionIssue(issueKey, IssueTransitionRequest(transitionId, comment, resolutionName)))
    {
      var transitionRequest := IssueTransitionRequest(transitionId, comment, resolutionName);
      r := client.TransitionIssue(issueKey, transitionRequest);
    }
  }
  // ---------------------------------------------------------------------
  // A sequence of one-field updates

  /** The update calls that the server's PATCH handler and the CLI's
      `issue update` make through the service, in order: the summary when
      truthy, then the labels to add, then the labels to remove, each when
      non-empty. The description and the priority are not sent. */
  function UpdateCalls(issueKey: string, u: IssueUpdate): seq<Call> {
    SummaryCalls(issueKey, u) + LabelCalls(issueKey, u)
  }

  /** The summary call of an update, when the summary is truthy. */
  function SummaryCalls(issueKey: string, u: IssueUpdate): seq<Call> {
    if NonEmpty(u.summary) then [Call.UpdateIssue(issueKey, SummaryUpdate(u.summary.value))] else []
  }

  /** The label calls of an update: the labels to add, then the labels to
      remove, each when non-empty. */
  function LabelCalls(issueKey: string, u: IssueUpdate): seq<Call> {
    (if u.labelsAdd != [] then [Call.UpdateIssue(issueKey, LabelsAddUpdate(u.labelsAdd))] else [])
    + (if u.labelsRemove != [] then [Call.UpdateIssue(issueKey, LabelsRemoveUpdate(u.labelsRemove))] else [])
  }

  /** An update call on `issueKey` whose payload sets exactly one field. */
  predicate OneFieldCall(c: Call, issueKey: string) {
    c.UpdateIssue? && c.issueKey == issueKey && |Keys(UpdateFields(c.update))| == 1
  }

  lemma OneFieldUpdates(issueKey: string, u: IssueUpdate)
    ensures NonEmpty(u.summary) ==> OneFieldCall(Call.UpdateIssue(issueKey, SummaryUpdate(u.summary.value)), issueKey)
    ensures u.labelsAdd != [] ==> OneFieldCall(Call.UpdateIssue(issueKey, LabelsAddUpdate(u.labelsAdd)), issueKey)
    ensures u.labelsRemove != [] ==> OneFieldCall(Call.UpdateIssue(issueKey, LabelsRemoveUpdate(u.labelsRemove)), issueKey)
  {
    if NonEmpty(u.summary) {
      SummaryUpdateFields(u.summary.value);
    }
    LabelsAddUpdateFields(u.labelsAdd);
    LabelsRemoveUpdateFields(u.labelsRemove);
  }

  /** One call per field to change, each on the issue given and each
      carrying exactly that one field. */
  lemma UpdateCallsOneFieldEach(issueKey: string, u: IssueUpdate)
    ensures |UpdateCalls(issueKey, u)| ==
              (if NonEmpty(u.summary) then 1 else 0) + (if u.labelsAdd != [] then 1 else 0)
              + (if u.labelsRemove != [] then 1 else 0)
    ensures forall c :: c in UpdateCalls(issueKey, u) ==> OneFieldCall(c, issueKey)
  {
    OneFieldUpdates(issueKey, u);
    var summary, labels := SummaryCalls(issueKey, u), LabelCalls(issueKey, u);
    assert UpdateCalls(issueKey, u) == summary + labels;
    assert forall c :: c in summary ==> OneFieldCall(c, issueKey);
    assert forall c :: c in labels ==> OneFieldCall(c, issueKey);
  }

  /** At most one write, then the rest: the rest is made only when that
      write raised nothing. */
  lemma WriteStep(s: seq<Call>, rest: seq<Call>, replies: Replies)
    requires |s| <= 1
    ensures StopAtFailure(s + rest, replies) ==
              if s != [] && replies.Answer(s[0]).Failure? then s else s + StopAtFailure(rest, replies)
    ensures FirstFailure(s + rest, replies) ==
              if s != [] && replies.Answer(s[0]).Failure? then replies.Answer(s[0]) else FirstFailure(rest, replies)
  {
    StopAtFailureAppend(s, rest, replies);
    if s != [] {
      assert s == [s[0]];
      SingleWrite(s[0], replies);
    }
  }

  /** The calls of an update, one after the other; a call that raises ends
      the sequence and is the outcome. */
  method ApplyUpdate(client: FakeClient, issueKey: string, u: IssueUpdate) returns (done: Result<(), Failure>)
    modifies client`calls
    ensures client.calls == old(client.calls) + StopAtFailure(UpdateCalls(issueKey, u), client.replies)
    ensures done == FirstFailure(UpdateCalls(issueKey, u), client.replies)
  {
    ghost var before := client.calls;
    ghost var summary := SummaryCalls(issueKey, u);
    ghost var labels := LabelCalls(issueKey, u);
    StopAtFailureAppend(summary, labels, client.replies);
    StopAtFirstFailure(summary, client.replies);
    done := ApplySummaryChange(client, issueKey, u);
    if done.Failure? {
      return;
    }
    ghost var middle := client.calls;
    done := ApplyLabelChanges(client, issueKey, u);
    assert client.calls == before + (summary + StopAtFailure(labels, client.replies)) by {
      assert middle == before + summary;
    }
  }

  /** The summary part of `ApplyUpdate`. */
  method ApplySummaryChange(client: FakeClient, issueKey: string, u: IssueUpdate) returns (done: Result<(), Failure>)
    modifies client`calls
    ensures client.calls == old(client.calls) + StopAtFailure(SummaryCalls(issueKey, u), client.replies)
    ensures done == FirstFailure(SummaryCalls(issueKey, u), client.replies)
  {
    done := Success(());
    if NonEmpty(u.summary) {
      SingleWrite(Call.UpdateIssue(issueKey, SummaryUpdate(u.summary.value)), client.replies);
      var issueService := new IssueService(client);
      done := issueService.UpdateIssueSummary(issueKey, u.summary.value);
    }
  }

  /** The label part of `ApplyUpdate`. */
  method ApplyLabelChanges(client: FakeClient, issueKey: string, u: IssueUpdate) returns (done: Result<(), Failure>)
    modifies client`calls
    ensures client.calls == old(client.calls) + StopAtFailure(LabelCalls(issueKey, u), client.replies)
    ensures done == FirstFailure(LabelCalls(issueKey, u), client.replies)
  {
    var s2 := if u.labelsAdd != [] then [Call.UpdateIssue(issueKey, LabelsAddUpdate(u.labelsAdd))] else [];
    var s3 := if u.labelsRemove != [] then [Call.UpdateIssue(issueKey, LabelsRemoveUpdate(u.labelsRemove))] else [];
    assert s3 == s3 + [];
    WriteStep(s2, s3, client.replies);
    WriteStep(s3, [], client.replies);
    var issueService := new IssueService(client);
    if u.labelsAdd != [] {
      done := issueService.AddLabelsToIssue(issueKey, u.labelsAdd);
      if done.Failure? {
        return;
      }
    }
    if u.labelsRemove != [] {
      done := issueService.RemoveLabelsFromIssue(issueKey, u.labelsRemove);
      if done.Failure? {
        return;
      }
    }
    done := Success(());
  }

  /** The summary is changed, the labels to add are refused, and the labels
      to remove are never sent: the outcome is the refusal. */
  lemma LaterWriteFailureStops(issueKey: string, u: IssueUpdate, replies: Replies, f: Failure)
    requires NonEmpty(u.summary) && u.labelsAdd != [] && u.labelsRemove != []
    requires replies.Answer(Call.UpdateIssue(issueKey, SummaryUpdate(u.summary.value))).Success?
    requires replies.Answer(Call.UpdateIssue(issueKey, LabelsAddUpdate(u.labelsAdd))) == Failure(f)
    ensures StopAtFailure(UpdateCalls(issueKey, u), replies)
            == [Call.UpdateIssue(issueKey, SummaryUpdate(u.summary.value)),
                Call.UpdateIssue(issueKey, LabelsAddUpdate(u.labelsAdd))]
    ensures FirstFailure(UpdateCalls(issueKey, u), replies) == Failure(f)
  {
    var c1 := Call.UpdateIssue(issueKey, SummaryUpdate(u.summary.value));
    var c2 := Call.UpdateIssue(issueKey, LabelsAddUpdate(u.labelsAdd));
    var c3 := Call.UpdateIssue(issueKey, LabelsRemoveUpdate(u.labelsRemove));
    assert UpdateCalls(issueKey, u) == [c1] + ([c2] + [c3]);
    StopAtFailureAppend([c1], [c2] + [c3], replies);
    StopAtFailureAppend([c2], [c3], replies);
    SingleWrite(c1, replies);
    SingleWrite(c2, replies);
  }
}
