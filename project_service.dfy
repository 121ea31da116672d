/**
 * services/project_service.py: project and version operations through the
 * Jira client, with the version filter behind `get_project_versions`.
 */
module ProjectServices {
  import opened Wrappers
  import opened Text
  import opened Json
  import opened Errors
  import opened ProjectModels
  import opened FakeJira

  // ---------------------------------------------------------------------
  // The version filter

  /** `[v for v in versions if v.released]` when `released` holds and
      `[v for v in versions if not v.released]` otherwise. */
  function VersionsWith(versions: seq<ProjectVersion>, released: bool): (r: seq<ProjectVersion>)
    ensures |r| <= |versions|
    ensures forall v :: v in r ==> v in versions && v.released == released
    ensures forall v :: v in versions && v.released == released ==> v in r
  {
    if versions == [] then []
    else (if versions[0].released == released then [versions[0]] else []) + VersionsWith(versions[1..], released)
  }

  /** What `get_project_versions` returns for the fetched list. */
  function FilterVersions(versions: seq<ProjectVersion>, releasedOnly: Option<bool>): seq<ProjectVersion> {
    if releasedOnly.None? then versions else VersionsWith(versions, releasedOnly.value)
  }

  /** `a` is `b` with some elements left out, the rest in their order. */
  predicate SubsequenceOf<T(==)>(a: seq<T>, b: seq<T>)
    decreases |b|
  {
    a == [] || (b != [] && ((a[0] == b[0] && SubsequenceOf(a[1..], b[1..])) || SubsequenceOf(a, b[1..])))
  }

  /** Filtering a concatenation filters each part: relative order is kept. */
  lemma {:induction false} VersionsWithAppend(a: seq<ProjectVersion>, b: seq<ProjectVersion>, released: bool)
    ensures VersionsWith(a + b, released) == VersionsWith(a, released) + VersionsWith(b, released)
  {
    if a == [] {
      assert a + b == b;
    } else {
      var head := if a[0].released == released then [a[0]] else [];
      assert (a + b)[0] == a[0];
      calc {
        VersionsWith(a + b, released);
        head + VersionsWith((a + b)[1..], released);
        { assert (a + b)[1..] == a[1..] + b; }
        head + VersionsWith(a[1..] + b, released);
        { VersionsWithAppend(a[1..], b, released); }
        head + (VersionsWith(a[1..], released) + VersionsWith(b, released));
        (head + VersionsWith(a[1..], released)) + VersionsWith(b, released);
        VersionsWith(a, released) + VersionsWith(b, released);
      }
    }
  }

  /** The filtered list is a subsequence of the fetched one. */
  lemma {:induction false} VersionsWithKeepsOrder(versions: seq<ProjectVersion>, released: bool)
    ensures SubsequenceOf(VersionsWith(versions, released), versions)
  {
    if versions != [] {
      VersionsWithKeepsOrder(versions[1..], released);
      var rest := VersionsWith(versions[1..], released);
      if versions[0].released == released {
        assert VersionsWith(versions, released) == [versions[0]] + rest;
        assert ([versions[0]] + rest)[1..] == rest;
      } else {
        assert VersionsWith(versions, released) == rest;
      }
    }
  }

  /** Each version occurs in the filtered list exactly as often as in the
      fetched one when its `released` flag is the one asked for, and not at
      all otherwise. */
  lemma {:induction false} VersionsWithCounts(versions: seq<ProjectVersion>, released: bool, v: ProjectVersion)
    ensures multiset(VersionsWith(versions, released))[v] == if v.released == released then multiset(versions)[v] else 0
  {
    if versions != [] {
      var head := if versions[0].released == released then [versions[0]] else [];
      var rest := VersionsWith(versions[1..], released);
      VersionsWithCounts(versions[1..], released, v);
      assert versions == [versions[0]] + versions[1..];
      assert multiset(versions) == multiset([versions[0]]) + multiset(versions[1..]);
      assert multiset(VersionsWith(versions, released)) == multiset(head) + multiset(rest);
    }
  }

  /** The released and unreleased lists partition the fetched list. */
  lemma VersionsPartition(versions: seq<ProjectVersion>)
    ensures |VersionsWith(versions, true)| + |VersionsWith(versions, false)| == |versions|
    ensures multiset(VersionsWith(versions, true)) + multiset(VersionsWith(versions, false)) == multiset(versions)
  {
    var kept, dropped := VersionsWith(versions, true), VersionsWith(versions, false);
    forall v | true
      ensures (multiset(kept) + multiset(dropped))[v] == multiset(versions)[v]
    {
      VersionsWithCounts(versions, true, v);
      VersionsWithCounts(versions, false, v);
    }
    assert multiset(kept) + multiset(dropped) == multiset(versions);
    assert |multiset(kept) + multiset(dropped)| == |kept| + |dropped|;
  }

  /** Without a filter the fetched list comes back unchanged. */
  lemma FilterNoneIsIdentity(versions: seq<ProjectVersion>)
    ensures FilterVersions(versions, None) == versions
    ensures FilterVersions(versions, Some(true)) == VersionsWith(versions, true)
    ensures FilterVersions(versions, Some(false)) == VersionsWith(versions, false)
  {
  }

  // ---------------------------------------------------------------------
  // get_version_by_name

  /** The first version whose name equals `name` exactly (case-sensitive),
      None when none does. */
  function VersionNamed(versions: seq<ProjectVersion>, name: string): (r: Option<ProjectVersion>)
    ensures r.Some? ==> r.value.name == name
    ensures r.Some? ==> exists k :: 0 <= k < |versions| && versions[k] == r.value
                                    && forall j :: 0 <= j < k ==> versions[j].name != name
    ensures r.None? <==> forall j :: 0 <= j < |versions| ==> versions[j].name != name
  {
    if versions == [] then None
    else if versions[0].name == name then Some(versions[0])
    else
      var rest := VersionNamed(versions[1..], name);
      assert forall j :: 1 <= j < |versions| ==> versions[j] == versions[1..][j - 1];
      rest
  }

  class ProjectService {
    const client: FakeClient

    constructor (client: FakeClient)
      ensures this.client == client
    {
      this.client := client;
    }

    method GetProject(projectKey: string) returns (r: Result<Project, Failure>)
      modifies client`calls
      ensures client.calls == old(client.calls) + [Call.GetProject(projectKey)] && r == client.replies.project
    {
      r := client.GetProject(projectKey);
    }

    /** `get_project_versions`: one fetch, then all versions (None), the
        released ones (true) or the unreleased ones (false). */
    method GetProjectVersions(projectKey: string, releasedOnly: Option<bool> := None)
      returns (r: Result<seq<ProjectVersion>, Failure>)
      modifies client`calls
      ensures client.calls == old(client.calls) + [Call.GetProjectVersions(projectKey)]
      ensures r == if client.replies.versions.Failure? then Failure(client.replies.versions.error)
                   else Success(FilterVersions(client.replies.versions.value, releasedOnly))
    {
      var versions := client.GetProjectVersions(projectKey);
      if versions.Failure? {
        return Failure(versions.error);
      }
      if releasedOnly.None? {
        return versions;
      } else if releasedOnly.value {
        return Success(VersionsWith(versions.value, true));
      } else {
        return Success(VersionsWith(versions.value, false));
      }
    }

    /** `create_version`: fetches the project first and sends its id as a
        number, with the other arguments unchanged. */
    method CreateVersion(projectKey: string, versionName: string, description: Option<string> := None,
                         startDate: Option<string> := None, releaseDate: Option<string> := None,
                         released: bool := false, archived: bool := false)
      returns (r: Result<ProjectVersion, Failure>)
      requires client.replies.project.Success? ==> client.replies.project.value.id != "" && AllDigits(client.replies.project.value.id)
      modifies client`calls
      ensures client.replies.project.Failure? ==>
                client.calls == old(client.calls) + [Call.GetProject(projectKey)] && r == Failure(client.replies.project.error)
      ensures client.replies.project.Success? ==>
                client.calls == old(client.calls)
                  + [Call.GetProject(projectKey),
                     Call.CreateProjectVersion(ProjectVersionCreate(versionName, description, ParseNat(client.replies.project.value.id),
                                                                    archived, released, startDate, releaseDate))]
                && r == client.replies.createdVersion
    {
      var project := GetProject(projectKey);
      if project.Failure? {
        return Failure(project.error);
      }
      var projectId := ParseNat(project.value.id);
      var versionData := ProjectVersionCreate(name := versionName, description := description, projectId := projectId,
                                              archived := archived, released := released, startDate := startDate,
                                              releaseDate := releaseDate);
      r := client.CreateProjectVersion(versionData);
    }

    /** `get_version_by_name`: all versions, then the first named exactly so. */
    method GetVersionByName(projectKey: string, versionName: string) returns (r: Result<Option<ProjectVersion>, Failure>)
      modifies client`calls
      ensures client.calls == old(client.calls) + [Call.GetProjectVersions(projectKey)]
      ensures r == if client.replies.versions.Failure? then Failure(client.replies.versions.error)
                   else Success(VersionNamed(client.replies.versions.value, versionName))
    {
      var versions := GetProjectVersions(projectKey);
      if versions.Failure? {
        return Failure(versions.error);
      }
      var vs := versions.value;
      for i := 0 to |vs|
        invariant VersionNamed(vs[i..], versionName) == VersionNamed(vs, versionName)
      {
        assert vs[i..][0] == vs[i] && vs[i..][1..] == vs[i + 1..];
        if vs[i].name == versionName {
          return Success(Some(vs[i]));
        }
      }
      assert vs[|vs|..] == [];
      r := Success(None);
    }

    /** `get_released_versions`: the filter with true. */
    method GetReleasedVersions(projectKey: string) returns (r: Result<seq<ProjectVersion>, Failure>)
      modifies client`calls
      ensures client.calls == old(client.calls) + [Call.GetProjectVersions(projectKey)]
      ensures r == if client.replies.versions.Failure? then Failure(client.replies.versions.error)
                   else Success(VersionsWith(client.replies.versions.value, true))
    {
      r := GetProjectVersions(projectKey, Some(true));
    }

    /** `get_unreleased_versions`: the filter with false. */
    method GetUnreleasedVersions(projectKey: string) returns (r: Result<seq<ProjectVersion>, Failure>)
      modifies client`calls
      ensures client.calls == old(client.calls) + [Call.GetProjectVersions(projectKey)]
      ensures r == if client.replies.versions.Failure? then Failure(client.replies.versions.error)
                   else Success(VersionsWith(client.replies.versions.value, false))
    {
      r := GetProjectVersions(projectKey, Some(false));
    }

    method GetIssueTypes() returns (r: Result<seq<Json>, Failure>)
      modifies client`calls
      ensures client.calls == old(client.calls) + [Call.GetIssueTypes] && r == client.replies.issueTypes
    {
      r := client.GetIssueTypes();
    }
  }
}
