/**
 * cli.py: the decisions the command-line interface takes before and between
 * service calls: how a comma-separated `--labels` option becomes a label
 * list, the guard and the call order of `issue update`, the call order of
 * `issue create`, and how `issue list-types` shortens long descriptions.
 * Prompts, tables, colours and configuration are not part of this model.
 */
module Cli {
  import opened Wrappers
  import opened Text
  import opened Json
  import opened Errors
  import opened IssueModels
  import opened FakeJira
  import opened IssueServices
  import opened ProjectServices

  // ---------------------------------------------------------------------
  // Label options

  /** `[l.strip() for l in parts]`. */
  function StripEach(parts: seq<string>): (r: seq<string>)
    ensures |r| == |parts|
  {
    if parts == [] then [] else [Strip(parts[0])] + StripEach(parts[1..])
  }

  lemma {:induction false} StripEachAt(parts: seq<string>, i: nat)
    requires i < |parts|
    ensures StripEach(parts)[i] == Strip(parts[i])
  {
    if i > 0 {
      StripEachAt(parts[1..], i - 1);
    }
  }

  /** `[l.strip() for l in s.split(",")]`. */
  function Pieces(s: string): (r: seq<string>)
    ensures |r| == CountChar(s, ',') + 1
  {
    StripEach(Split(s, ','))
  }

  /** The `--labels` option: no labels when it is absent or empty. */
  function LabelList(labels: Option<string>): seq<string> {
    if NonEmpty(labels) then Pieces(labels.value) else []
  }

  /** Only an absent or empty option yields no labels. */
  lemma LabelListEmpty(labels: Option<string>)
    ensures LabelList(labels) == [] <==> !NonEmpty(labels)
  {
    if NonEmpty(labels) {
      assert |LabelList(labels)| == CountChar(labels.value, ',') + 1;
    }
  }

  /** Stripping a piece keeps it free of commas and leaves no space at
      either end. */
  lemma StripPiece(p: string)
    requires ',' !in p
    ensures ',' !in Strip(p)
    ensures Strip(p) != [] ==> !IsSpace(Strip(p)[0]) && !IsSpace(Strip(p)[|Strip(p)| - 1])
  {
    var r := Strip(p);
    assert forall k :: 0 <= k < |r| ==> r[k] == p[LeadingSpaces(p) + k];
  }

  /** A given option yields one label per comma-separated piece, empty
      pieces included; each label is stripped and holds no comma. */
  lemma LabelListPieces(labels: Option<string>)
    ensures LabelList(labels) == [] <==> !NonEmpty(labels)
    ensures NonEmpty(labels) ==> |LabelList(labels)| == CountChar(labels.value, ',') + 1
    ensures forall i :: 0 <= i < |LabelList(labels)| ==>
              var l := LabelList(labels)[i];
              ',' !in l && (l != [] ==> !IsSpace(l[0]) && !IsSpace(l[|l| - 1]))
  {
    LabelListEmpty(labels);
    if NonEmpty(labels) {
      var parts := Split(labels.value, ',');
      var ls := StripEach(parts);
      assert LabelList(labels) == ls;
      forall i | 0 <= i < |ls|
        ensures ',' !in ls[i] && (ls[i] != [] ==> !IsSpace(ls[i][0]) && !IsSpace(ls[i][|ls[i]| - 1]))
      {
        StripEachAt(parts, i);
        StripPiece(parts[i]);
      }
    }
  }

  /** A label the option can carry unchanged: non-empty, no comma, no
      surrounding space. */
  predicate CleanLabel(l: string) {
    l != "" && ',' !in l && !IsSpace(l[0]) && !IsSpace(l[|l| - 1])
  }

  /** Clean labels strip to themselves. */
  lemma {:induction false} StripEachClean(ls: seq<string>)
    requires forall i :: 0 <= i < |ls| ==> CleanLabel(ls[i])
    ensures StripEach(ls) == ls
  {
    if ls != [] {
      StripTrimmed(ls[0]);
      StripEachClean(ls[1..]);
      assert [ls[0]] + ls[1..] == ls;
    }
  }

  /** Writing clean labels comma-separated gives them back. */
  lemma LabelListRoundTrip(ls: seq<string>)
    requires |ls| > 0
    requires forall i :: 0 <= i < |ls| ==> CleanLabel(ls[i])
    ensures LabelList(Some(Join(",", ls))) == ls
  {
    assert [','] == ",";
    var s := Join([','], ls);
    assert s != "" by {
      JoinStartsWithFirst([','], ls);
    }
    SplitJoin(ls, ',');
    StripEachClean(ls);
  }

  // ---------------------------------------------------------------------
  // issue list-types

  /** A description cell: the first 50 characters and "..." when longer
      than 50, the description itself otherwise. */
  function Truncated(d: string): (r: string)
    ensures |d| <= 50 ==> r == d
    ensures |d| > 50 ==> |r| == 53 && r[..50] == d[..50] && r[50..] == "..."
  {
    if |d| > 50 then d[..50] + "..." else d
  }

  /** A cell is never longer than 53 characters and always begins like the
      description; a description of 50 characters or fewer is shown whole. */
  lemma TruncatedBounds(d: string)
    ensures |Truncated(d)| <= 53
    ensures |Truncated(d)| >= 50 || Truncated(d) == d
    ensures StartsWith(Truncated(d), if |d| > 50 then d[..50] else d)
  {
  }

  // ---------------------------------------------------------------------
  // Command outcomes

  /** How a command ends: normally, with `typer.Exit(code)` after printing
      `message`, or with an exception it does not catch. */
  datatype CommandResult = Completed | Exit(code: int, message: string) | Crashed(failure: Failure)

  /** The `except JiraAPIError` around a command body. */
  function Failed(f: Failure): (r: CommandResult)
    ensures r.Exit? <==> f.Api?
    ensures r.Exit? ==> r.code == 1 && r.message == "Error: " + JiraErrorString(f.error)
  {
    if f.Api? then Exit(1, "Error: " + JiraErrorString(f.error)) else Crashed(f)
  }

  // ---------------------------------------------------------------------
  // issue update

  const NothingToUpdate := "Error: At least one update option must be provided"

  /** The update `issue update` carries out: the summary and the parsed
      label options; it never touches the description or the priority. */
  function UpdateFor(summary: Option<string>, addLabels: Option<string>, removeLabels: Option<string>): IssueUpdate {
    IssueUpdate(summary, None, LabelList(addLabels), LabelList(removeLabels), None)
  }

  /** The command makes one call per given option, summary first, then the
      labels to add, then the labels to remove, and none exactly when the
      guard stops it. */
  lemma UpdateCommandSteps(key: string, summary: Option<string>, addLabels: Option<string>,
                           removeLabels: Option<string>)
    ensures UpdateCalls(key, UpdateFor(summary, addLabels, removeLabels)) == [] <==>
              !(NonEmpty(summary) || NonEmpty(addLabels) || NonEmpty(removeLabels))
    ensures UpdateCalls(key, UpdateFor(summary, addLabels, removeLabels))
            == (if NonEmpty(summary) then [Call.UpdateIssue(key, SummaryUpdate(summary.value))] else [])
             + (if NonEmpty(addLabels) then [Call.UpdateIssue(key, LabelsAddUpdate(Pieces(addLabels.value)))] else [])
             + (if NonEmpty(removeLabels) then [Call.UpdateIssue(key, LabelsRemoveUpdate(Pieces(removeLabels.value)))] else [])
  {
    LabelListEmpty(addLabels);
    LabelListEmpty(removeLabels);
  }

  /** `issue update`: the guard, then the summary, the labels to add and the
      labels to remove, each only when given; the first failing call ends
      the command. */
  method UpdateCommand(client: FakeClient, key: string, summary: Option<string>, addLabels: Option<string>,
                       removeLabels: Option<string>)
    returns (res: CommandResult)
    modifies client`calls
    ensures !(NonEmpty(summary) || NonEmpty(addLabels) || NonEmpty(removeLabels)) ==>
              res == Exit(1, NothingToUpdate) && client.calls == old(client.calls)
    ensures NonEmpty(summary) || NonEmpty(addLabels) || NonEmpty(removeLabels) ==>
              var calls := UpdateCalls(key, UpdateFor(summary, addLabels, removeLabels));
              client.calls == old(client.calls) + StopAtFailure(calls, client.replies)
              && res == if FirstFailure(calls, client.replies).Failure?
                        then Failed(FirstFailure(calls, client.replies).error) else Completed
  {
    if !(NonEmpty(summary) || NonEmpty(addLabels) || NonEmpty(removeLabels)) {
      return Exit(1, NothingToUpdate);
    }
    var u := UpdateFor(summary, addLabels, removeLabels);
    UpdateCommandSteps(key, summary, addLabels, removeLabels);
    var done := ApplyUpdate(client, key, u);
    if done.Failure? {
      return Failed(done.error);
    }
    res := Completed;
  }

  // ---------------------------------------------------------------------
  // issue create

  /** `issue create`: the project is fetched first and its id used; the
      labels option is parsed; the email is resolved by the service. */
  method CreateCommand(client: FakeClient, project: string, summary: string, issueType: string,
                       description: Option<string>, assignee: Option<string>, labels: Option<string>)
    returns (res: CommandResult)
    modifies client`calls
    ensures client.replies.project.Failure? ==>
              client.calls == old(client.calls) + [Call.GetProject(project)]
              && res == Failed(client.replies.project.error)
    ensures client.replies.project.Success? ==>
              client.calls == old(client.calls) + [Call.GetProject(project)]
                + CreateIssueCalls(client.replies.project.value.id, summary, issueType, description, None, assignee,
                                   Some(LabelList(labels)), client.replies.users)
              && res == if AssigneeFor(assignee, client.replies.users).Failure?
                        then Failed(AssigneeFor(assignee, client.replies.users).error)
                        else if client.replies.issue.Failure? then Failed(client.replies.issue.error)
                        else Completed
  {
    var issueService := new IssueService(client);
    var projectService := new ProjectService(client);
    var projectObj := projectService.GetProject(project);
    if projectObj.Failure? {
      return Failed(projectObj.error);
    }
    var labelList := LabelList(labels);
    var issue := issueService.CreateIssue(projectObj.value.id, summary, issueType, description, None, assignee,
                                          Some(labelList));
    if issue.Failure? {
      return Failed(issue.error);
    }
    res := Completed;
  }
}
