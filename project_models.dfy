/**
 * models/project.py: ProjectVersion, ProjectVersionCreate, IssueType,
 * ProjectLead, Project and ProjectDetails as records, each with the decoder
 * pydantic applies to a JSON object, the encoder of `model_dump(by_alias=True)`
 * and decoding proved to undo encoding. The datetime fields of ProjectVersion
 * are kept as the text they arrive as.
 */
module ProjectModels {
  import opened Wrappers
  import opened Json
  import opened Decoding

  // ---------------------------------------------------------------------
  // ProjectVersion

  datatype ProjectVersion = ProjectVersion(
    id: string,
    name: string,
    description: Option<string>,
    archived: bool,
    released: bool,
    startDate: Option<string>,
    releaseDate: Option<string>,
    overdue: Option<bool>,
    userStartDate: Option<string>,
    userReleaseDate: Option<string>,
    projectId: int)

  /** `ProjectVersion(**data)`; the model declares no aliases. */
  function DecodeVersion(j: Json): (r: Result<ProjectVersion, DecodeError>)
    ensures !j.JObj? ==> r == Failure(NotAnObject)
    ensures j.JObj? && (Get(j.fields, "id").None? || Get(j.fields, "name").None? || Get(j.fields, "project_id").None?) ==> r.Failure?
    ensures r.Success? ==> Get(j.fields, "id") == Some(JStr(r.value.id)) && Get(j.fields, "name") == Some(JStr(r.value.name))
    ensures r.Success? ==> Get(j.fields, "project_id") == Some(JInt(r.value.projectId))
    ensures r.Success? && Get(j.fields, "archived").None? ==> !r.value.archived
    ensures r.Success? && Get(j.fields, "released").None? ==> !r.value.released
    ensures r.Success? && Get(j.fields, "description").None? ==> r.value.description.None?
  {
    if !j.JObj? then Failure(NotAnObject)
    else
      var v := Lookups(j.fields, VersionKeys, VersionKeys);
      VersionFrom(v[0], v[1], v[2], v[3], v[4], v[5], v[6], v[7], v[8], v[9], v[10])
  }

  /** Validation of ProjectVersion: `id`, `name` and `project_id` are required,
      `archived` and `released` default to false, all else to None. */
  function VersionFrom(id: Option<Json>, name: Option<Json>, description: Option<Json>, archived: Option<Json>,
                       released: Option<Json>, startDate: Option<Json>, releaseDate: Option<Json>,
                       overdue: Option<Json>, userStartDate: Option<Json>, userReleaseDate: Option<Json>,
                       projectId: Option<Json>): (r: Result<ProjectVersion, DecodeError>)
    ensures id.None? ==> r == Failure(Missing("id"))
    ensures r.Success? ==> id == Some(JStr(r.value.id)) && name == Some(JStr(r.value.name)) && projectId == Some(JInt(r.value.projectId))
    ensures r.Success? && archived.None? ==> !r.value.archived
    ensures r.Success? && released.None? ==> !r.value.released
    ensures r.Success? && description.None? ==> r.value.description.None?
    ensures r.Success? && startDate.None? ==> r.value.startDate.None?
    ensures r.Success? && releaseDate.None? ==> r.value.releaseDate.None?
    ensures r.Success? && overdue.None? ==> r.value.overdue.None?
    ensures r.Success? && userStartDate.None? ==> r.value.userStartDate.None?
    ensures r.Success? && userReleaseDate.None? ==> r.value.userReleaseDate.None?
  {
    var id :- ReqStr(id, "id");
    var name :- ReqStr(name, "name");
    var description :- OptStr(description, "description");
    var archived :- BoolOr(archived, "archived", false);
    var released :- BoolOr(released, "released", false);
    var startDate :- OptStr(startDate, "start_date");
    var releaseDate :- OptStr(releaseDate, "release_date");
    var overdue :- OptBool(overdue, "overdue");
    var userStartDate :- OptStr(userStartDate, "user_start_date");
    var userReleaseDate :- OptStr(userReleaseDate, "user_release_date");
    var projectId :- ReqInt(projectId, "project_id");
    Success(ProjectVersion(id, name, description, archived, released, startDate, releaseDate, overdue,
                           userStartDate, userReleaseDate, projectId))
  }

  const VersionKeys := ["id", "name", "description", "archived", "released", "start_date", "release_date",
                        "overdue", "user_start_date", "user_release_date", "project_id"]

  function VersionValues(v: ProjectVersion): seq<Json> {
    [JStr(v.id), JStr(v.name), OptStrJson(v.description), JBool(v.archived), JBool(v.released),
     OptStrJson(v.startDate), OptStrJson(v.releaseDate), OptBoolJson(v.overdue), OptStrJson(v.userStartDate),
     OptStrJson(v.userReleaseDate), JInt(v.projectId)]
  }

  function VersionJson(v: ProjectVersion): Json {
    JObj(Zip(VersionKeys, VersionValues(v)))
  }

  /** Validation accepts the values the encoder writes and rebuilds v. */
  lemma VersionFromValues(v: ProjectVersion)
    ensures var vs := VersionValues(v);
      VersionFrom(Some(vs[0]), Some(vs[1]), Some(vs[2]), Some(vs[3]), Some(vs[4]), Some(vs[5]), Some(vs[6]),
                  Some(vs[7]), Some(vs[8]), Some(vs[9]), Some(vs[10])) == Success(v)
  {
    ReadOptStr(v.description, "description");
    ReadOptStr(v.startDate, "start_date");
    ReadOptStr(v.releaseDate, "release_date");
    ReadOptBool(v.overdue, "overdue");
    ReadOptStr(v.userStartDate, "user_start_date");
    ReadOptStr(v.userReleaseDate, "user_release_date");
  }

  lemma VersionRoundTrip(v: ProjectVersion)
    ensures DecodeVersion(VersionJson(v)) == Success(v)
  {
    assert NoDupFrom(VersionKeys, 0);
    LookupsOfZip(VersionKeys, VersionKeys, VersionValues(v));
    VersionFromValues(v);
  }

  // ---------------------------------------------------------------------
  // ProjectVersionCreate

  datatype ProjectVersionCreate = ProjectVersionCreate(
    name: string,
    description: Option<string>,
    projectId: int,
    archived: bool,
    released: bool,
    startDate: Option<string>,
    releaseDate: Option<string>)

  function DecodeVersionCreate(j: Json): (r: Result<ProjectVersionCreate, DecodeError>)
    ensures !j.JObj? ==> r == Failure(NotAnObject)
    ensures j.JObj? && (Get(j.fields, "name").None? || Get(j.fields, "project_id").None?) ==> r.Failure?
    ensures j.JObj? && Get(j.fields, "name").None? ==> r == Failure(Missing("name"))
    ensures r.Success? ==> Get(j.fields, "name") == Some(JStr(r.value.name)) && Get(j.fields, "project_id") == Some(JInt(r.value.projectId))
    ensures r.Success? && Get(j.fields, "archived").None? ==> !r.value.archived
    ensures r.Success? && Get(j.fields, "released").None? ==> !r.value.released
  {
    if !j.JObj? then Failure(NotAnObject)
    else
      var v := Lookups(j.fields, VersionCreateKeys, VersionCreateKeys);
      VersionCreateFrom(v[0], v[1], v[2], v[3], v[4], v[5], v[6])
  }

  /** Validation of ProjectVersionCreate: `name` and `project_id` are required,
      `archived` and `released` default to false, the rest to None. */
  function VersionCreateFrom(name: Option<Json>, description: Option<Json>, projectId: Option<Json>,
                             archived: Option<Json>, released: Option<Json>, startDate: Option<Json>,
                             releaseDate: Option<Json>): (r: Result<ProjectVersionCreate, DecodeError>)
    ensures name.None? ==> r == Failure(Missing("name"))
    ensures r.Success? ==> name == Some(JStr(r.value.name)) && projectId == Some(JInt(r.value.projectId))
    ensures r.Success? && archived.None? ==> !r.value.archived
    ensures r.Success? && released.None? ==> !r.value.released
    ensures r.Success? && description.None? ==> r.value.description.None?
    ensures r.Success? && startDate.None? ==> r.value.startDate.None?
    ensures r.Success? && releaseDate.None? ==> r.value.releaseDate.None?
  {
    var name :- ReqStr(name, "name");
    var description :- OptStr(description, "description");
    var projectId :- ReqInt(projectId, "project_id");
    var archived :- BoolOr(archived, "archived", false);
    var released :- BoolOr(released, "released", false);
    var startDate :- OptStr(startDate, "start_date");
    var releaseDate :- OptStr(releaseDate, "release_date");
    Success(ProjectVersionCreate(name, description, projectId, archived, released, startDate, releaseDate))
  }

  const VersionCreateKeys := ["name", "description", "project_id", "archived", "released", "start_date", "release_date"]

  function VersionCreateValues(c: ProjectVersionCreate): seq<Json> {
    [JStr(c.name), OptStrJson(c.description), JInt(c.projectId), JBool(c.archived), JBool(c.released),
     OptStrJson(c.startDate), OptStrJson(c.releaseDate)]
  }

  function VersionCreateJson(c: ProjectVersionCreate): Json {
    JObj(Zip(VersionCreateKeys, VersionCreateValues(c)))
  }

  lemma VersionCreateFromValues(c: ProjectVersionCreate)
    ensures var vs := VersionCreateValues(c);
      VersionCreateFrom(Some(vs[0]), Some(vs[1]), Some(vs[2]), Some(vs[3]), Some(vs[4]), Some(vs[5]), Some(vs[6])) == Success(c)
  {
    ReadOptStr(c.description, "description");
    ReadOptStr(c.startDate, "start_date");
    ReadOptStr(c.releaseDate, "release_date");
  }

  lemma VersionCreateRoundTrip(c: ProjectVersionCreate)
    ensures DecodeVersionCreate(VersionCreateJson(c)) == Success(c)
  {
    assert NoDupFrom(VersionCreateKeys, 0);
    LookupsOfZip(VersionCreateKeys, VersionCreateKeys, VersionCreateValues(c));
    VersionCreateFromValues(c);
  }

  /** `ProjectVersionCreate()` with no arguments is rejected. */
  lemma VersionCreateRequiresName()
    ensures DecodeVersionCreate(EmptyObject) == Failure(Missing("name"))
  {
  }

  // ---------------------------------------------------------------------
  // IssueType

  datatype IssueType = IssueType(id: string, name: string, description: string, iconUrl: Option<string>, subtask: bool)

  function DecodeIssueType(j: Json): (r: Result<IssueType, DecodeError>)
    ensures !j.JObj? ==> r == Failure(NotAnObject)
    ensures j.JObj? && (Get(j.fields, "id").None? || Get(j.fields, "name").None? || Get(j.fields, "description").None?) ==> r.Failure?
    ensures r.Success? ==> Get(j.fields, "id") == Some(JStr(r.value.id)) && Get(j.fields, "name") == Some(JStr(r.value.name))
    ensures r.Success? ==> Get(j.fields, "description") == Some(JStr(r.value.description))
    ensures r.Success? && Get(j.fields, "subtask").None? ==> !r.value.subtask
    ensures r.Success? && Get(j.fields, "icon_url").None? ==> r.value.iconUrl.None?
  {
    if !j.JObj? then Failure(NotAnObject)
    else
      var v := Lookups(j.fields, IssueTypeKeys, IssueTypeKeys);
      IssueTypeFrom(v[0], v[1], v[2], v[3], v[4])
  }

  /** Validation of IssueType: `id`, `name` and `description` are required
      strings, `icon_url` defaults to None and `subtask` to false. */
  function IssueTypeFrom(id: Option<Json>, name: Option<Json>, description: Option<Json>, iconUrl: Option<Json>,
                         subtask: Option<Json>): (r: Result<IssueType, DecodeError>)
    ensures id.None? ==> r == Failure(Missing("id"))
    ensures r.Success? ==> id == Some(JStr(r.value.id)) && name == Some(JStr(r.value.name)) && description == Some(JStr(r.value.description))
    ensures r.Success? && subtask.None? ==> !r.value.subtask
    ensures r.Success? && iconUrl.None? ==> r.value.iconUrl.None?
  {
    var id :- ReqStr(id, "id");
    var name :- ReqStr(name, "name");
    var description :- ReqStr(description, "description");
    var iconUrl :- OptStr(iconUrl, "icon_url");
    var subtask :- BoolOr(subtask, "subtask", false);
    Success(IssueType(id, name, description, iconUrl, subtask))
  }

  const IssueTypeKeys := ["id", "name", "description", "icon_url", "subtask"]

  function IssueTypeValues(t: IssueType): seq<Json> {
    [JStr(t.id), JStr(t.name), JStr(t.description), OptStrJson(t.iconUrl), JBool(t.subtask)]
  }

  function IssueTypeJson(t: IssueType): Json {
    JObj(Zip(IssueTypeKeys, IssueTypeValues(t)))
  }

  lemma IssueTypeRoundTrip(t: IssueType)
    ensures DecodeIssueType(IssueTypeJson(t)) == Success(t)
  {
    assert NoDupFrom(IssueTypeKeys, 0);
    LookupsOfZip(IssueTypeKeys, IssueTypeKeys, IssueTypeValues(t));
    ReadOptStr(t.iconUrl, "icon_url");
  }

  // ---------------------------------------------------------------------
  // ProjectLead

  datatype ProjectLead = ProjectLead(accountId: Option<string>, displayName: Option<string>, active: Option<bool>,
                                     avatarUrls: Option<StrMap>)

  /** `ProjectLead(**data)`; the aliases are read first. */
  function DecodeLead(j: Json): (r: Result<ProjectLead, DecodeError>)
    ensures !j.JObj? ==> r == Failure(NotAnObject)
    ensures j.JObj? && Lookup(j.fields, "accountId", "account_id").None? && Lookup(j.fields, "displayName", "display_name").None? &&
              Get(j.fields, "active").None? && Lookup(j.fields, "avatarUrls", "avatar_urls").None?
            ==> r == Success(ProjectLead(None, None, None, None))
    ensures r.Success? && r.value.accountId.Some? ==> Lookup(j.fields, "accountId", "account_id") == Some(JStr(r.value.accountId.value))
    ensures r.Success? && r.value.displayName.Some? ==> Lookup(j.fields, "displayName", "display_name") == Some(JStr(r.value.displayName.value))
  {
    if !j.JObj? then Failure(NotAnObject)
    else
      var v := Lookups(j.fields, LeadKeys, LeadNames);
      LeadFrom(v[0], v[1], v[2], v[3])
  }

  /** Validation of ProjectLead: every field is optional, so only a value of
      the wrong type fails. */
  function LeadFrom(accountId: Option<Json>, displayName: Option<Json>, active: Option<Json>, avatarUrls: Option<Json>): (r: Result<ProjectLead, DecodeError>)
    ensures accountId.None? && displayName.None? && active.None? && avatarUrls.None? ==> r == Success(ProjectLead(None, None, None, None))
    ensures r.Success? && r.value.accountId.Some? ==> accountId == Some(JStr(r.value.accountId.value))
    ensures r.Success? && r.value.displayName.Some? ==> displayName == Some(JStr(r.value.displayName.value))
    ensures r.Failure? ==> (accountId.Some? || displayName.Some? || active.Some? || avatarUrls.Some?)
  {
    var accountId :- OptStr(accountId, "account_id");
    var displayName :- OptStr(displayName, "display_name");
    var active :- OptBool(active, "active");
    var avatarUrls :- OptStrMap(avatarUrls, "avatar_urls");
    Success(ProjectLead(accountId, displayName, active, avatarUrls))
  }

  /** The aliases and the names of ProjectLead's fields. */
  const LeadKeys := ["accountId", "displayName", "active", "avatarUrls"]
  const LeadNames := ["account_id", "display_name", "active", "avatar_urls"]

  function LeadValues(l: ProjectLead): seq<Json> {
    [OptStrJson(l.accountId), OptStrJson(l.displayName), OptBoolJson(l.active), OptStrMapJson(l.avatarUrls)]
  }

  function LeadJson(l: ProjectLead): Json {
    JObj(Zip(LeadKeys, LeadValues(l)))
  }

  lemma LeadRoundTrip(l: ProjectLead)
    ensures DecodeLead(LeadJson(l)) == Success(l)
  {
    assert NoDupFrom(LeadKeys, 0);
    LookupsOfZip(LeadKeys, LeadNames, LeadValues(l));
    ReadOptStr(l.accountId, "account_id");
    ReadOptStr(l.displayName, "display_name");
    ReadOptBool(l.active, "active");
    ReadOptStrMap(l.avatarUrls, "avatar_urls");
  }

  /** populate_by_name: a lead written under the field names decodes to
      that lead as well. */
  lemma LeadByFieldNames(l: ProjectLead)
    ensures DecodeLead(JObj(Zip(LeadNames, LeadValues(l)))) == Success(l)
  {
    assert NoDupFrom(LeadNames, 0);
    LookupsOfNameZip(LeadKeys, LeadNames, LeadValues(l));
    ReadOptStr(l.accountId, "account_id");
    ReadOptStr(l.displayName, "display_name");
    ReadOptBool(l.active, "active");
    ReadOptStrMap(l.avatarUrls, "avatar_urls");
  }

  // ---------------------------------------------------------------------
  // Project

  datatype Project = Project(
    id: string,
    key: string,
    name: string,
    description: Option<string>,
    lead: Option<ProjectLead>,
    projectTypeKey: Option<string>,
    avatarUrls: Option<StrMap>,
    url: Option<string>,
    issueTypes: Option<seq<IssueType>>,
    versions: Option<seq<ProjectVersion>>)

  /** `Project(**data)`: `projectTypeKey`, `avatarUrls` and `issueTypes` are
      aliases read before the field names. */
  function DecodeProject(j: Json): (r: Result<Project, DecodeError>)
    ensures !j.JObj? ==> r == Failure(NotAnObject)
    ensures j.JObj? && (Get(j.fields, "id").None? || Get(j.fields, "key").None? || Get(j.fields, "name").None?) ==> r.Failure?
    ensures r.Success? ==> Get(j.fields, "id") == Some(JStr(r.value.id)) && Get(j.fields, "key") == Some(JStr(r.value.key))
    ensures r.Success? ==> Get(j.fields, "name") == Some(JStr(r.value.name))
    ensures r.Success? && r.value.projectTypeKey.Some? ==> Lookup(j.fields, "projectTypeKey", "project_type_key") == Some(JStr(r.value.projectTypeKey.value))
  {
    if !j.JObj? then Failure(NotAnObject)
    else
      var v := Lookups(j.fields, ProjectKeys, ProjectNames);
      ProjectFrom(v[0], v[1], v[2], v[3], v[4], v[5], v[6], v[7], v[8], v[9])
  }

  /** Validation of Project: `id`, `key` and `name` are required strings, every
      other field defaults to None; nested models are validated by their own
      decoders. */
  function ProjectFrom(id: Option<Json>, key: Option<Json>, name: Option<Json>, description: Option<Json>,
                       lead: Option<Json>, projectTypeKey: Option<Json>, avatarUrls: Option<Json>, url: Option<Json>,
                       issueTypes: Option<Json>, versions: Option<Json>): (r: Result<Project, DecodeError>)
    ensures id.None? ==> r == Failure(Missing("id"))
    ensures r.Success? ==> id == Some(JStr(r.value.id)) && key == Some(JStr(r.value.key)) && name == Some(JStr(r.value.name))
    ensures r.Success? && r.value.projectTypeKey.Some? ==> projectTypeKey == Some(JStr(r.value.projectTypeKey.value))
    ensures r.Success? && description.None? ==> r.value.description.None?
    ensures r.Success? && lead.None? ==> r.value.lead.None?
    ensures r.Success? && projectTypeKey.None? ==> r.value.projectTypeKey.None?
    ensures r.Success? && avatarUrls.None? ==> r.value.avatarUrls.None?
    ensures r.Success? && url.None? ==> r.value.url.None?
    ensures r.Success? && issueTypes.None? ==> r.value.issueTypes.None?
    ensures r.Success? && versions.None? ==> r.value.versions.None?
  {
    var id :- ReqStr(id, "id");
    var key :- ReqStr(key, "key");
    var name :- ReqStr(name, "name");
    var description :- OptStr(description, "description");
    var lead :- OptRecord(lead, "lead", DecodeLead);
    var projectTypeKey :- OptStr(projectTypeKey, "project_type_key");
    var avatarUrls :- OptStrMap(avatarUrls, "avatar_urls");
    var url :- OptStr(url, "url");
    var issueTypes :- OptList(issueTypes, "issue_types", DecodeIssueType);
    var versions :- OptList(versions, "versions", DecodeVersion);
    Success(Project(id, key, name, description, lead, projectTypeKey, avatarUrls, url, issueTypes, versions))
  }

  /** The aliases and the names of Project's fields. */
  const ProjectKeys := ["id", "key", "name", "description", "lead", "projectTypeKey", "avatarUrls", "url",
                        "issueTypes", "versions"]
  const ProjectNames := ["id", "key", "name", "description", "lead", "project_type_key", "avatar_urls", "url",
                         "issue_types", "versions"]

  function ProjectValues(p: Project): seq<Json> {
    [JStr(p.id), JStr(p.key), JStr(p.name), OptStrJson(p.description), OptRecordJson(p.lead, LeadJson),
     OptStrJson(p.projectTypeKey), OptStrMapJson(p.avatarUrls), OptStrJson(p.url),
     OptListJson(p.issueTypes, IssueTypeJson), OptListJson(p.versions, VersionJson)]
  }

  function ProjectJson(p: Project): Json {
    JObj(Zip(ProjectKeys, ProjectValues(p)))
  }

  /** The nested models of a project read back from their encodings. */
  lemma ReadLead(o: Option<ProjectLead>)
    ensures OptRecord(Some(OptRecordJson(o, LeadJson)), "lead", DecodeLead) == Success(o)
  {
    if o.Some? {
      LeadRoundTrip(o.value);
    }
    ReadOptRecord(o, "lead", LeadJson, DecodeLead);
  }

  lemma IssueTypesRoundTrip(ts: seq<IssueType>)
    ensures DecodeList(ListJson(ts, IssueTypeJson), DecodeIssueType) == Success(ts)
  {
    forall i | 0 <= i < |ts|
      ensures DecodeIssueType(IssueTypeJson(ts[i])) == Success(ts[i])
    {
      IssueTypeRoundTrip(ts[i]);
    }
    ReadList(ts, IssueTypeJson, DecodeIssueType);
  }

  lemma VersionsRoundTrip(vs: seq<ProjectVersion>)
    ensures DecodeList(ListJson(vs, VersionJson), DecodeVersion) == Success(vs)
  {
    forall i | 0 <= i < |vs|
      ensures DecodeVersion(VersionJson(vs[i])) == Success(vs[i])
    {
      VersionRoundTrip(vs[i]);
    }
    ReadList(vs, VersionJson, DecodeVersion);
  }

  lemma ReadIssueTypes(o: Option<seq<IssueType>>)
    ensures OptList(Some(OptListJson(o, IssueTypeJson)), "issue_types", DecodeIssueType) == Success(o)
  {
    if o.Some? {
      IssueTypesRoundTrip(o.value);
    }
  }

  lemma ReadVersions(o: Option<seq<ProjectVersion>>)
    ensures OptList(Some(OptListJson(o, VersionJson)), "versions", DecodeVersion) == Success(o)
  {
    if o.Some? {
      VersionsRoundTrip(o.value);
    }
  }

  /** Validation rebuilds p from its encoded scalar fields and from any
      nested values that validate to p's nested models. */
  lemma ProjectFromNested(p: Project, lead: Option<Json>, issueTypes: Option<Json>, versions: Option<Json>)
    requires OptRecord(lead, "lead", DecodeLead) == Success(p.lead)
    requires OptList(issueTypes, "issue_types", DecodeIssueType) == Success(p.issueTypes)
    requires OptList(versions, "versions", DecodeVersion) == Success(p.versions)
    ensures ProjectFrom(Some(JStr(p.id)), Some(JStr(p.key)), Some(JStr(p.name)), Some(OptStrJson(p.description)), lead,
                        Some(OptStrJson(p.projectTypeKey)), Some(OptStrMapJson(p.avatarUrls)), Some(OptStrJson(p.url)),
                        issueTypes, versions) == Success(p)
  {
    ReadOptStr(p.description, "description");
    ReadOptStr(p.projectTypeKey, "project_type_key");
    ReadOptStrMap(p.avatarUrls, "avatar_urls");
    ReadOptStr(p.url, "url");
  }

  /** Validation accepts the values the encoder writes and rebuilds p. */
  lemma ProjectFromValues(p: Project)
    ensures var vs := ProjectValues(p);
      ProjectFrom(Some(vs[0]), Some(vs[1]), Some(vs[2]), Some(vs[3]), Some(vs[4]), Some(vs[5]), Some(vs[6]),
                  Some(vs[7]), Some(vs[8]), Some(vs[9])) == Success(p)
  {
    var vs := ProjectValues(p);
    ReadLead(p.lead);
    ReadIssueTypes(p.issueTypes);
    ReadVersions(p.versions);
    ProjectFromNested(p, Some(vs[4]), Some(vs[8]), Some(vs[9]));
  }

  lemma ProjectRoundTrip(p: Project)
    ensures DecodeProject(ProjectJson(p)) == Success(p)
  {
    assert NoDupFrom(ProjectKeys, 0);
    LookupsOfZip(ProjectKeys, ProjectNames, ProjectValues(p));
    ProjectFromValues(p);
  }

  /** populate_by_name: a project written under its field names
      (`project_type_key`, `avatar_urls`, `issue_types`) decodes to that
      project as well. */
  lemma ProjectByFieldNames(p: Project)
    ensures DecodeProject(JObj(Zip(ProjectNames, ProjectValues(p)))) == Success(p)
  {
    assert NoDupFrom(ProjectNames, 0);
    LookupsOfNameZip(ProjectKeys, ProjectNames, ProjectValues(p));
    ProjectFromValues(p);
  }

  /** What each field of Project reads from an object holding the three
      required fields and `project_type_key` under its field name. */
  lemma SnakeCaseProjectLookups(fs: Fields, id: string, key: string, name: string, typeKey: string)
    requires fs == [("id", JStr(id)), ("key", JStr(key)), ("name", JStr(name)), ("project_type_key", JStr(typeKey))]
    ensures Get(fs, "id") == Some(JStr(id)) && Get(fs, "key") == Some(JStr(key)) && Get(fs, "name") == Some(JStr(name))
    ensures Get(fs, "description") == None && Get(fs, "lead") == None && Get(fs, "url") == None && Get(fs, "versions") == None
    ensures Lookup(fs, "projectTypeKey", "project_type_key") == Some(JStr(typeKey))
    ensures Lookup(fs, "avatarUrls", "avatar_urls") == None && Lookup(fs, "issueTypes", "issue_types") == None
  {
    var ks := ["id", "key", "name", "project_type_key"];
    assert Keys(fs) == ks;
    GetByKeyList(fs, ks, "id");
    GetByKeyList(fs, ks, "key");
    GetByKeyList(fs, ks, "name");
    GetByKeyList(fs, ks, "description");
    GetByKeyList(fs, ks, "lead");
    GetByKeyList(fs, ks, "projectTypeKey");
    GetByKeyList(fs, ks, "project_type_key");
    GetByKeyList(fs, ks, "avatarUrls");
    GetByKeyList(fs, ks, "avatar_urls");
    GetByKeyList(fs, ks, "url");
    GetByKeyList(fs, ks, "issueTypes");
    GetByKeyList(fs, ks, "issue_types");
    GetByKeyList(fs, ks, "versions");
  }

  /** `Project(id=…, key=…, name=…, project_type_key="software")`: the snake_case
      name is accepted when the alias is absent. */
  lemma ProjectBySnakeCaseName(id: string, key: string, name: string, typeKey: string)
    ensures DecodeProject(JObj([("id", JStr(id)), ("key", JStr(key)), ("name", JStr(name)), ("project_type_key", JStr(typeKey))]))
         == Success(Project(id, key, name, None, None, Some(typeKey), None, None, None, None))
  {
    var fs := [("id", JStr(id)), ("key", JStr(key)), ("name", JStr(name)), ("project_type_key", JStr(typeKey))];
    SnakeCaseProjectLookups(fs, id, key, name, typeKey);
  }

  // ---------------------------------------------------------------------
  // ProjectDetails

  datatype ProjectDetails = ProjectDetails(project: Project, versions: seq<ProjectVersion>, issueTypes: seq<IssueType>)

  /** `ProjectDetails(**data)`: `project` is required; both lists default to []. */
  function DecodeDetails(j: Json): (r: Result<ProjectDetails, DecodeError>)
    ensures !j.JObj? ==> r == Failure(NotAnObject)
    ensures j.JObj? && Get(j.fields, "project").None? ==> r == Failure(Missing("project"))
    ensures r.Success? ==> Get(j.fields, "project").Some? && DecodeProject(Get(j.fields, "project").value) == Success(r.value.project)
    ensures r.Success? && Get(j.fields, "versions").None? ==> r.value.versions == []
    ensures r.Success? && Get(j.fields, "issue_types").None? ==> r.value.issueTypes == []
  {
    if !j.JObj? then Failure(NotAnObject)
    else
      var v := Lookups(j.fields, DetailsKeys, DetailsKeys);
      DetailsFrom(v[0], v[1], v[2])
  }

  function DetailsFrom(project: Option<Json>, versions: Option<Json>, issueTypes: Option<Json>): (r: Result<ProjectDetails, DecodeError>)
    ensures project.None? ==> r == Failure(Missing("project"))
    ensures r.Success? ==> project.Some? && DecodeProject(project.value) == Success(r.value.project)
    ensures r.Success? && versions.None? ==> r.value.versions == []
    ensures r.Success? && issueTypes.None? ==> r.value.issueTypes == []
  {
    var project :- ReqRecord(project, "project", DecodeProject);
    var versions :- ListOr(versions, "versions", DecodeVersion);
    var issueTypes :- ListOr(issueTypes, "issue_types", DecodeIssueType);
    Success(ProjectDetails(project, versions, issueTypes))
  }

  const DetailsKeys := ["project", "versions", "issue_types"]

  function DetailsValues(d: ProjectDetails): seq<Json> {
    [ProjectJson(d.project), JArr(ListJson(d.versions, VersionJson)), JArr(ListJson(d.issueTypes, IssueTypeJson))]
  }

  function DetailsJson(d: ProjectDetails): Json {
    JObj(Zip(DetailsKeys, DetailsValues(d)))
  }

  /** The three fields of a ProjectDetails read back from their encodings. */
  lemma ReadProject(p: Project)
    ensures ReqRecord(Some(ProjectJson(p)), "project", DecodeProject) == Success(p)
  {
    ProjectRoundTrip(p);
  }

  lemma ReadVersionList(vs: seq<ProjectVersion>)
    ensures ListOr(Some(JArr(ListJson(vs, VersionJson))), "versions", DecodeVersion) == Success(vs)
  {
    VersionsRoundTrip(vs);
  }

  lemma ReadIssueTypeList(ts: seq<IssueType>)
    ensures ListOr(Some(JArr(ListJson(ts, IssueTypeJson))), "issue_types", DecodeIssueType) == Success(ts)
  {
    IssueTypesRoundTrip(ts);
  }

  /** Validation accepts the values the encoder writes and rebuilds d. */
  lemma DetailsFromValues(d: ProjectDetails)
    ensures var vs := DetailsValues(d); DetailsFrom(Some(vs[0]), Some(vs[1]), Some(vs[2])) == Success(d)
  {
    ReadProject(d.project);
    ReadVersionList(d.versions);
    ReadIssueTypeList(d.issueTypes);
  }

  lemma DetailsRoundTrip(d: ProjectDetails)
    ensures DecodeDetails(DetailsJson(d)) == Success(d)
  {
    assert NoDupFrom(DetailsKeys, 0);
    LookupsOfZip(DetailsKeys, DetailsKeys, DetailsValues(d));
    DetailsFromValues(d);
  }

  /** Only the project given: both lists are empty. */
  lemma DetailsDefaults(p: Project)
    ensures DecodeDetails(JObj([("project", ProjectJson(p))])) == Success(ProjectDetails(p, [], []))
  {
    var fs := [("project", ProjectJson(p))];
    GetAt(fs, "project", 0);
    GetAbsent(fs, "versions");
    GetAbsent(fs, "issue_types");
    ProjectRoundTrip(p);
  }
}
