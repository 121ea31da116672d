/**
 * models/issue.py: the request records IssueCreate, IssueUpdate,
 * IssueTransitionRequest and IssueAssignment and the JSON payloads their
 * `to_jira_format` methods build for Jira Cloud's REST API v3.
 *
 * Three of the builders fill a dict key by key; they are methods that do the
 * same with `Put` (Python's `d[key] = value`). Each is proved against a
 * reference description of its result: the value each key reads
 * (`...Value(x, key)`, None for a key that is absent) and the order in which
 * the keys appear (`...Keys(x)`). Together the two determine the object.
 */
module IssueModels {
  import opened Wrappers
  import opened Text
  import opened Json

  // ---------------------------------------------------------------------
  // Shared JSON shapes

  /** The one-paragraph Atlassian Document Format document the builders use
      for every rich-text value. */
  function AdfDoc(text: string): Json {
    JObj([("type", JStr("doc")), ("version", JInt(1)),
          ("content", JArr([JObj([("type", JStr("paragraph")),
                                  ("content", JArr([JObj([("type", JStr("text")), ("text", JStr(text))])]))])]))])
  }

  /** The text held by a document of that shape, None for any other JSON value. */
  function AdfText(j: Json): (r: Option<string>)
    ensures r.Some? ==> j == AdfDoc(r.value)
  {
    if !(j.JObj? && |j.fields| == 3 && j.fields[0] == ("type", JStr("doc")) && j.fields[1] == ("version", JInt(1))
         && j.fields[2].0 == "content" && j.fields[2].1.JArr? && |j.fields[2].1.items| == 1) then None
    else
      var para := j.fields[2].1.items[0];
      if !(para.JObj? && |para.fields| == 2 && para.fields[0] == ("type", JStr("paragraph"))
           && para.fields[1].0 == "content" && para.fields[1].1.JArr? && |para.fields[1].1.items| == 1) then None
      else
        var node := para.fields[1].1.items[0];
        if node.JObj? && |node.fields| == 2 && node.fields[0] == ("type", JStr("text")) && node.fields[1].0 == "text"
           && node.fields[1].1.JStr?
        then
          assert node == JObj([("type", JStr("text")), ("text", JStr(node.fields[1].1.s))]);
          assert para.fields[1].1.items == [node];
          assert para == JObj([("type", JStr("paragraph")), ("content", JArr([node]))]);
          assert j.fields[2].1.items == [para];
          assert j.fields == [j.fields[0], j.fields[1], ("content", JArr([para]))];
          Some(node.fields[1].1.s)
        else None
  }

  /** The document gives back the text it was built from, so different texts
      give different documents. */
  lemma AdfRoundTrip(text: string)
    ensures AdfText(AdfDoc(text)) == Some(text)
  {
  }

  lemma AdfInjective(a: string, b: string)
    requires AdfDoc(a) == AdfDoc(b)
    ensures a == b
  {
    AdfRoundTrip(a);
    AdfRoundTrip(b);
  }

  /** `{"id": id}` */
  function IdObject(id: string): Json {
    JObj([("id", JStr(id))])
  }

  /** `{"accountId": a}` */
  function AccountObject(a: string): Json {
    JObj([("accountId", JStr(a))])
  }

  /** A key the builder inserts only when its source is truthy. */
  function KeyWhen(c: bool, k: string): seq<string> {
    if c then [k] else []
  }

  // ---------------------------------------------------------------------
  // IssueCreate

  datatype IssueCreate = IssueCreate(
    projectId: string,
    summary: string,
    description: Option<string>,
    issueTypeId: string,
    priorityId: Option<string>,
    assigneeAccountId: Option<string>,
    reporterAccountId: Option<string>,
    labels: seq<string>)

  /** The entry `key: f(o.value)` when `o` is truthy, no entry otherwise:
      `if o: d[key] = f(o)`. */
  function Optional(key: string, o: Option<string>, f: string -> Json): (r: Fields)
    ensures Keys(r) == KeyWhen(NonEmpty(o), key)
  {
    if NonEmpty(o) then [(key, f(o.value))] else []
  }

  lemma GetOptional(key: string, o: Option<string>, f: string -> Json, k: string)
    ensures Get(Optional(key, o, f), k) == if k == key && NonEmpty(o) then Some(f(o.value)) else None
  {
    if NonEmpty(o) {
      GetSingle(key, f(o.value), k);
    }
  }

  /** `if o: d[key] = f(o)` on an object that does not hold key appends the
      optional entry. */
  lemma PutOptional(fs: Fields, key: string, o: Option<string>, f: string -> Json)
    requires key !in Keys(fs)
    ensures (if NonEmpty(o) then Put(fs, key, f(o.value)) else fs) == fs + Optional(key, o, f)
  {
    PutNew(fs, key, if NonEmpty(o) then f(o.value) else JNull);
  }

  /** The entry `key: v` when `cond` holds, no entry otherwise:
      `if cond: d[key] = v` for a value that is defined either way. */
  function Entry(cond: bool, key: string, v: Json): (r: Fields)
    ensures Keys(r) == KeyWhen(cond, key)
  {
    if cond then [(key, v)] else []
  }

  lemma GetEntry(cond: bool, key: string, v: Json, k: string)
    ensures Get(Entry(cond, key, v), k) == if k == key && cond then Some(v) else None
  {
    if cond {
      GetSingle(key, v, k);
    }
  }

  /** `if cond: d[key] = v` on an object that does not hold key appends the
      entry. */
  lemma PutEntry(fs: Fields, cond: bool, key: string, v: Json)
    requires key !in Keys(fs)
    ensures (if cond then Put(fs, key, v) else fs) == fs + Entry(cond, key, v)
  {
    PutNew(fs, key, v);
  }

  function CreateBase(c: IssueCreate): Fields {
    [("project", IdObject(c.projectId)), ("summary", JStr(c.summary)), ("issuetype", IdObject(c.issueTypeId))]
  }

  /** The key order of a base object followed by four optional entries. */
  lemma KeysOfStages(s0: Fields, e1: Fields, e2: Fields, e3: Fields, e4: Fields,
                     b1: bool, b2: bool, b3: bool, b4: bool)
    requires Keys(s0) == ["project", "summary", "issuetype"]
    requires Keys(e1) == KeyWhen(b1, "description") && Keys(e2) == KeyWhen(b2, "priority")
    requires Keys(e3) == KeyWhen(b3, "assignee") && Keys(e4) == KeyWhen(b4, "reporter")
    ensures "description" !in Keys(s0)
    ensures "priority" !in Keys(s0 + e1)
    ensures "assignee" !in Keys(s0 + e1 + e2)
    ensures "reporter" !in Keys(s0 + e1 + e2 + e3)
    ensures "labels" !in Keys(s0 + e1 + e2 + e3 + e4)
    ensures Keys(s0 + e1 + e2 + e3 + e4) == Keys(s0) + KeyWhen(b1, "description") + KeyWhen(b2, "priority")
                                            + KeyWhen(b3, "assignee") + KeyWhen(b4, "reporter")
  {
    KeysAppend(s0, e1);
    KeysAppend(s0 + e1, e2);
    KeysAppend(s0 + e1 + e2, e3);
    KeysAppend(s0 + e1 + e2 + e3, e4);
  }

  /** No optional key of a create payload is already present when it is
      assigned. */
  lemma CreateKeysFresh(c: IssueCreate)
    ensures "description" !in Keys(CreateBase(c))
    ensures "priority" !in Keys(CreateBase(c) + Optional("description", c.description, AdfDoc))
    ensures "assignee" !in Keys(CreateBase(c) + Optional("description", c.description, AdfDoc)
                                + Optional("priority", c.priorityId, IdObject))
    ensures "reporter" !in Keys(CreateBase(c) + Optional("description", c.description, AdfDoc)
                                + Optional("priority", c.priorityId, IdObject)
                                + Optional("assignee", c.assigneeAccountId, AccountObject))
    ensures "labels" !in Keys(CreateBase(c) + Optional("description", c.description, AdfDoc)
                              + Optional("priority", c.priorityId, IdObject)
                              + Optional("assignee", c.assigneeAccountId, AccountObject)
                              + Optional("reporter", c.reporterAccountId, AccountObject))
  {
    KeysOfStages(CreateBase(c), Optional("description", c.description, AdfDoc), Optional("priority", c.priorityId, IdObject),
                 Optional("assignee", c.assigneeAccountId, AccountObject), Optional("reporter", c.reporterAccountId, AccountObject),
                 NonEmpty(c.description), NonEmpty(c.priorityId), NonEmpty(c.assigneeAccountId), NonEmpty(c.reporterAccountId));
  }

  /** What each key of the `fields` object of a create payload reads. */
  function CreateValue(c: IssueCreate, key: string): Option<Json> {
    if key == "project" then Some(IdObject(c.projectId))
    else if key == "summary" then Some(JStr(c.summary))
    else if key == "issuetype" then Some(IdObject(c.issueTypeId))
    else if key == "description" then if NonEmpty(c.description) then Some(AdfDoc(c.description.value)) else None
    else if key == "priority" then if NonEmpty(c.priorityId) then Some(IdObject(c.priorityId.value)) else None
    else if key == "assignee" then if NonEmpty(c.assigneeAccountId) then Some(AccountObject(c.assigneeAccountId.value)) else None
    else if key == "reporter" then if NonEmpty(c.reporterAccountId) then Some(AccountObject(c.reporterAccountId.value)) else None
    else if key == "labels" then if c.labels != [] then Some(JArr(Strings(c.labels))) else None
    else None
  }

  /** The order of the keys of that object. */
  function CreateKeys(c: IssueCreate): seq<string> {
    ["project", "summary", "issuetype"]
    + KeyWhen(NonEmpty(c.description), "description")
    + KeyWhen(NonEmpty(c.priorityId), "priority")
    + KeyWhen(NonEmpty(c.assigneeAccountId), "assignee")
    + KeyWhen(NonEmpty(c.reporterAccountId), "reporter")
    + KeyWhen(c.labels != [], "labels")
  }

  /** The `fields` object of a create payload: the three required entries,
      then each optional entry whose source is truthy, in this order. */
  function CreateFields(c: IssueCreate): Fields {
    CreateBase(c)
    + Optional("description", c.description, AdfDoc)
    + Optional("priority", c.priorityId, IdObject)
    + Optional("assignee", c.assigneeAccountId, AccountObject)
    + Optional("reporter", c.reporterAccountId, AccountObject)
    + Entry(c.labels != [], "labels", JArr(Strings(c.labels)))
  }

  lemma CreateFieldsKeys(c: IssueCreate)
    ensures Keys(CreateFields(c)) == CreateKeys(c)
  {
    var s4 := CreateBase(c) + Optional("description", c.description, AdfDoc) + Optional("priority", c.priorityId, IdObject)
              + Optional("assignee", c.assigneeAccountId, AccountObject) + Optional("reporter", c.reporterAccountId, AccountObject);
    KeysOfStages(CreateBase(c), Optional("description", c.description, AdfDoc), Optional("priority", c.priorityId, IdObject),
                 Optional("assignee", c.assigneeAccountId, AccountObject), Optional("reporter", c.reporterAccountId, AccountObject),
                 NonEmpty(c.description), NonEmpty(c.priorityId), NonEmpty(c.assigneeAccountId), NonEmpty(c.reporterAccountId));
    KeysAppend(s4, Entry(c.labels != [], "labels", JArr(Strings(c.labels))));
  }

  /** Reading a key of such an object, with the labels entry last, is reading
      the one part that can hold it. */
  lemma GetOfStages(s0: Fields, e1: Fields, e2: Fields, e3: Fields, e4: Fields, e5: Fields,
                    b1: bool, b2: bool, b3: bool, b4: bool, b5: bool, k: string)
    requires Keys(s0) == ["project", "summary", "issuetype"]
    requires Keys(e1) == KeyWhen(b1, "description") && Keys(e2) == KeyWhen(b2, "priority")
    requires Keys(e3) == KeyWhen(b3, "assignee") && Keys(e4) == KeyWhen(b4, "reporter")
    requires Keys(e5) == KeyWhen(b5, "labels")
    ensures Get(s0 + e1 + e2 + e3 + e4 + e5, k) ==
      if k == "project" || k == "summary" || k == "issuetype" then Get(s0, k)
      else if k == "description" then Get(e1, k)
      else if k == "priority" then Get(e2, k)
      else if k == "assignee" then Get(e3, k)
      else if k == "reporter" then Get(e4, k)
      else Get(e5, k)
  {
    KeysAppend(s0, e1);
    KeysAppend(s0 + e1, e2);
    KeysAppend(s0 + e1 + e2, e3);
    KeysAppend(s0 + e1 + e2 + e3, e4);
    GetAppend(s0, e1, k);
    GetAppend(s0 + e1, e2, k);
    GetAppend(s0 + e1 + e2, e3, k);
    GetAppend(s0 + e1 + e2 + e3, e4, k);
    GetAppend(s0 + e1 + e2 + e3 + e4, e5, k);
    GetFindsKey(e1, k);
    GetFindsKey(e2, k);
    GetFindsKey(e3, k);
    GetFindsKey(e4, k);
    GetFindsKey(e5, k);
  }

  lemma CreateFieldsReadsKey(c: IssueCreate, k: string)
    ensures Get(CreateFields(c), k) == CreateValue(c, k)
  {
    GetOfStages(CreateBase(c), Optional("description", c.description, AdfDoc), Optional("priority", c.priorityId, IdObject),
                Optional("assignee", c.assigneeAccountId, AccountObject), Optional("reporter", c.reporterAccountId, AccountObject),
                Entry(c.labels != [], "labels", JArr(Strings(c.labels))), NonEmpty(c.description), NonEmpty(c.priorityId), NonEmpty(c.assigneeAccountId),
                NonEmpty(c.reporterAccountId), c.labels != [], k);
    GetTriple("project", IdObject(c.projectId), "summary", JStr(c.summary), "issuetype", IdObject(c.issueTypeId), k);
    GetOptional("description", c.description, AdfDoc, k);
    GetOptional("priority", c.priorityId, IdObject, k);
    GetOptional("assignee", c.assigneeAccountId, AccountObject, k);
    GetOptional("reporter", c.reporterAccountId, AccountObject, k);
    GetEntry(c.labels != [], "labels", JArr(Strings(c.labels)), k);
  }

  /** The create payload holds exactly the entries `CreateValue` describes, in
      the order `CreateKeys` gives. */
  lemma CreateFieldsReads(c: IssueCreate)
    ensures Keys(CreateFields(c)) == CreateKeys(c)
    ensures forall k :: Get(CreateFields(c), k) == CreateValue(c, k)
  {
    CreateFieldsKeys(c);
    forall k
      ensures Get(CreateFields(c), k) == CreateValue(c, k)
    {
      CreateFieldsReadsKey(c, k);
    }
  }

  /** `IssueCreate.to_jira_format`: every assignment adds a new key, so the
      payload is `{"fields": CreateFields(c)}`. */
  method CreateToJiraFormat(c: IssueCreate) returns (payload: Json)
    ensures payload == JObj([("fields", JObj(CreateFields(c)))])
  {
    var fields: Fields := [("project", IdObject(c.projectId)), ("summary", JStr(c.summary)), ("issuetype", IdObject(c.issueTypeId))];
    CreateKeysFresh(c);
    ghost var prev := fields;
    if NonEmpty(c.description) {
      fields := Put(fields, "description", AdfDoc(c.description.value));
    }
    PutOptional(prev, "description", c.description, AdfDoc);
    prev := fields;
    if NonEmpty(c.priorityId) {
      fields := Put(fields, "priority", IdObject(c.priorityId.value));
    }
    PutOptional(prev, "priority", c.priorityId, IdObject);
    prev := fields;
    if NonEmpty(c.assigneeAccountId) {
      fields := Put(fields, "assignee", AccountObject(c.assigneeAccountId.value));
    }
    PutOptional(prev, "assignee", c.assigneeAccountId, AccountObject);
    prev := fields;
    if NonEmpty(c.reporterAccountId) {
      fields := Put(fields, "reporter", AccountObject(c.reporterAccountId.value));
    }
    PutOptional(prev, "reporter", c.reporterAccountId, AccountObject);
    prev := fields;
    if c.labels != [] {
      fields := Put(fields, "labels", JArr(Strings(c.labels)));
    }
    PutEntry(prev, c.labels != [], "labels", JArr(Strings(c.labels)));
    payload := JObj([("fields", JObj(fields))]);
  }

  // ---------------------------------------------------------------------
  // IssueUpdate

  datatype IssueUpdate = IssueUpdate(
    summary: Option<string>,
    description: Option<string>,
    labelsAdd: seq<string>,
    labelsRemove: seq<string>,
    priorityId: Option<string>)

  /** `[{"set": v}]`, Jira's update operation that replaces a field's value. */
  function SetOperation(v: Json): Json {
    JArr([JObj([("set", v)])])
  }

  function SetText(s: string): Json { SetOperation(JStr(s)) }
  function SetDoc(s: string): Json { SetOperation(AdfDoc(s)) }
  function SetId(s: string): Json { SetOperation(IdObject(s)) }

  /** `{op: name}`, one label operation. */
  function LabelOperation(op: string, name: string): Json {
    JObj([(op, JStr(name))])
  }

  /** One `{op: label}` per label, in order. */
  function LabelOperations(op: string, labels: seq<string>): (r: seq<Json>)
    ensures |r| == |labels|
    ensures forall i :: 0 <= i < |labels| ==> r[i] == LabelOperation(op, labels[i])
  {
    seq(|labels|, i requires 0 <= i < |labels| => LabelOperation(op, labels[i]))
  }

  lemma LabelOperationsSnoc(op: string, labels: seq<string>, i: nat)
    requires i < |labels|
    ensures LabelOperations(op, labels[..i + 1]) == LabelOperations(op, labels[..i]) + [LabelOperation(op, labels[i])]
  {
    assert labels[..i + 1] == labels[..i] + [labels[i]];
  }

  /** The same, after earlier operations. */
  lemma LabelOperationsSnocAfter(before: seq<Json>, op: string, labels: seq<string>, i: nat)
    requires i < |labels|
    ensures before + LabelOperations(op, labels[..i + 1]) == before + LabelOperations(op, labels[..i]) + [LabelOperation(op, labels[i])]
  {
    LabelOperationsSnoc(op, labels, i);
  }

  /** The label operations of an update: every addition in order, then every
      removal in order, duplicates and overlaps kept. */
  function UpdateLabelOps(u: IssueUpdate): (r: seq<Json>)
    ensures |r| == |u.labelsAdd| + |u.labelsRemove|
    ensures forall i :: 0 <= i < |u.labelsAdd| ==> r[i] == LabelOperation("add", u.labelsAdd[i])
    ensures forall j :: 0 <= j < |u.labelsRemove| ==> r[|u.labelsAdd| + j] == LabelOperation("remove", u.labelsRemove[j])
  {
    LabelOperations("add", u.labelsAdd) + LabelOperations("remove", u.labelsRemove)
  }

  /** The `update` object of an update payload: each entry whose source is
      truthy, in the order summary, description, labels, priority. */
  function UpdateFields(u: IssueUpdate): Fields {
    Optional("summary", u.summary, SetText)
    + Optional("description", u.description, SetDoc)
    + Entry(UpdateLabelOps(u) != [], "labels", JArr(UpdateLabelOps(u)))
    + Optional("priority", u.priorityId, SetId)
  }

  /** What each key of that object reads. */
  function UpdateValue(u: IssueUpdate, key: string): Option<Json> {
    if key == "summary" then if NonEmpty(u.summary) then Some(SetOperation(JStr(u.summary.value))) else None
    else if key == "description" then if NonEmpty(u.description) then Some(SetOperation(AdfDoc(u.description.value))) else None
    else if key == "labels" then
      if u.labelsAdd != [] || u.labelsRemove != [] then Some(JArr(UpdateLabelOps(u))) else None
    else if key == "priority" then if NonEmpty(u.priorityId) then Some(SetOperation(IdObject(u.priorityId.value))) else None
    else None
  }

  /** The order of its keys. */
  function UpdateKeys(u: IssueUpdate): seq<string> {
    KeyWhen(NonEmpty(u.summary), "summary")
    + KeyWhen(NonEmpty(u.description), "description")
    + KeyWhen(u.labelsAdd != [] || u.labelsRemove != [], "labels")
    + KeyWhen(NonEmpty(u.priorityId), "priority")
  }

  /** Four optional entries under distinct keys: none of the later keys is
      present before it is assigned, and a key is read from its own entry. */
  lemma FourEntries(e1: Fields, e2: Fields, e3: Fields, e4: Fields, b1: bool, b2: bool, b3: bool, b4: bool,
                    n1: string, n2: string, n3: string, n4: string, k: string)
    requires n1 != n2 && n1 != n3 && n1 != n4 && n2 != n3 && n2 != n4 && n3 != n4
    requires Keys(e1) == KeyWhen(b1, n1) && Keys(e2) == KeyWhen(b2, n2)
    requires Keys(e3) == KeyWhen(b3, n3) && Keys(e4) == KeyWhen(b4, n4)
    ensures n2 !in Keys(e1) && n3 !in Keys(e1 + e2) && n4 !in Keys(e1 + e2 + e3)
    ensures Keys(e1 + e2 + e3 + e4) == KeyWhen(b1, n1) + KeyWhen(b2, n2) + KeyWhen(b3, n3) + KeyWhen(b4, n4)
    ensures Get(e1 + e2 + e3 + e4, k) ==
      if k == n1 then Get(e1, k) else if k == n2 then Get(e2, k) else if k == n3 then Get(e3, k) else Get(e4, k)
  {
    KeysAppend(e1, e2);
    KeysAppend(e1 + e2, e3);
    KeysAppend(e1 + e2 + e3, e4);
    GetAppend(e1, e2, k);
    GetAppend(e1 + e2, e3, k);
    GetAppend(e1 + e2 + e3, e4, k);
    GetFindsKey(e1, k);
    GetFindsKey(e2, k);
    GetFindsKey(e3, k);
    GetFindsKey(e4, k);
  }

  lemma UpdateFieldsReadsKey(u: IssueUpdate, k: string)
    ensures Keys(UpdateFields(u)) == UpdateKeys(u)
    ensures Get(UpdateFields(u), k) == UpdateValue(u, k)
  {
    var ops := UpdateLabelOps(u);
    FourEntries(Optional("summary", u.summary, SetText), Optional("description", u.description, SetDoc),
                Entry(ops != [], "labels", JArr(ops)), Optional("priority", u.priorityId, SetId),
                NonEmpty(u.summary), NonEmpty(u.description), ops != [], NonEmpty(u.priorityId),
                "summary", "description", "labels", "priority", k);
    GetOptional("summary", u.summary, SetText, k);
    GetOptional("description", u.description, SetDoc, k);
    GetEntry(ops != [], "labels", JArr(ops), k);
    GetOptional("priority", u.priorityId, SetId, k);
  }

  /** The update payload holds exactly the entries `UpdateValue` describes, in
      the order `UpdateKeys` gives: a key is present only when its source is
      truthy, and no other key appears. */
  lemma UpdateFieldsReads(u: IssueUpdate)
    ensures Keys(UpdateFields(u)) == UpdateKeys(u)
    ensures forall k :: Get(UpdateFields(u), k) == UpdateValue(u, k)
  {
    UpdateFieldsReadsKey(u, "");
    forall k
      ensures Get(UpdateFields(u), k) == UpdateValue(u, k)
    {
      UpdateFieldsReadsKey(u, k);
    }
  }

  /** An update that changes nothing is `{"update": {}}`. */
  lemma EmptyUpdate(u: IssueUpdate)
    requires !NonEmpty(u.summary) && !NonEmpty(u.description) && !NonEmpty(u.priorityId)
    requires u.labelsAdd == [] && u.labelsRemove == []
    ensures UpdateFields(u) == []
  {
  }

  /** `IssueUpdate.to_jira_format`. */
  method UpdateToJiraFormat(u: IssueUpdate) returns (payload: Json)
    ensures payload == JObj([("update", JObj(UpdateFields(u)))])
  {
    var update: Fields := [];
    ghost var ops := UpdateLabelOps(u);
    FourEntries(Optional("summary", u.summary, SetText), Optional("description", u.description, SetDoc),
                Entry(ops != [], "labels", JArr(ops)), Optional("priority", u.priorityId, SetId),
                NonEmpty(u.summary), NonEmpty(u.description), ops != [], NonEmpty(u.priorityId),
                "summary", "description", "labels", "priority", "");
    ghost var prev := update;
    if NonEmpty(u.summary) {
      update := Put(update, "summary", SetOperation(JStr(u.summary.value)));
    }
    PutOptional(prev, "summary", u.summary, SetText);
    assert update == Optional("summary", u.summary, SetText);
    prev := update;
    if NonEmpty(u.description) {
      update := Put(update, "description", SetOperation(AdfDoc(u.description.value)));
    }
    PutOptional(prev, "description", u.description, SetDoc);
    prev := update;
    var labelOperations: seq<Json> := [];
    for i := 0 to |u.labelsAdd|
      invariant labelOperations == LabelOperations("add", u.labelsAdd[..i])
    {
      LabelOperationsSnoc("add", u.labelsAdd, i);
      labelOperations := labelOperations + [LabelOperation("add", u.labelsAdd[i])];
    }
    assert u.labelsAdd[..|u.labelsAdd|] == u.labelsAdd;
    for i := 0 to |u.labelsRemove|
      invariant labelOperations == LabelOperations("add", u.labelsAdd) + LabelOperations("remove", u.labelsRemove[..i])
    {
      LabelOperationsSnocAfter(LabelOperations("add", u.labelsAdd), "remove", u.labelsRemove, i);
      labelOperations := labelOperations + [LabelOperation("remove", u.labelsRemove[i])];
    }
    assert u.labelsRemove[..|u.labelsRemove|] == u.labelsRemove;
    assert labelOperations == ops;
    if labelOperations != [] {
      update := Put(update, "labels", JArr(labelOperations));
    }
    PutEntry(prev, ops != [], "labels", JArr(ops));
    prev := update;
    if NonEmpty(u.priorityId) {
      update := Put(update, "priority", SetOperation(IdObject(u.priorityId.value)));
    }
    PutOptional(prev, "priority", u.priorityId, SetId);
    payload := JObj([("update", JObj(update))]);
  }


  // ---------------------------------------------------------------------
  // IssueTransitionRequest

  datatype IssueTransitionRequest = IssueTransitionRequest(
    transitionId: string,
    comment: Option<string>,
    resolutionName: Option<string>)

  /** `{"name": n}` */
  function NameObject(n: string): Json {
    JObj([("name", JStr(n))])
  }

  /** `{"resolution": {"name": r}}` */
  function ResolutionFields(r: string): Json {
    JObj([("resolution", NameObject(r))])
  }

  /** `{"comment": [{"add": {"body": <document of text>}}]}` */
  function CommentUpdate(text: string): Json {
    JObj([("comment", JArr([JObj([("add", JObj([("body", AdfDoc(text))]))])]))])
  }

  /** A transition payload: the transition, then `fields` when a resolution
      is given, then `update` when a comment is given. */
  function TransitionData(t: IssueTransitionRequest): Fields {
    Entry(true, "transition", IdObject(t.transitionId))
    + Optional("fields", t.resolutionName, ResolutionFields)
    + Optional("update", t.comment, CommentUpdate)
  }

  /** What each key of a transition payload reads. */
  function TransitionValue(t: IssueTransitionRequest, key: string): Option<Json> {
    if key == "transition" then Some(IdObject(t.transitionId))
    else if key == "fields" then
      if NonEmpty(t.resolutionName) then Some(JObj([("resolution", JObj([("name", JStr(t.resolutionName.value))]))])) else None
    else if key == "update" then if NonEmpty(t.comment) then Some(CommentUpdate(t.comment.value)) else None
    else None
  }

  function TransitionKeys(t: IssueTransitionRequest): seq<string> {
    ["transition"] + KeyWhen(NonEmpty(t.resolutionName), "fields") + KeyWhen(NonEmpty(t.comment), "update")
  }

  /** Three optional entries under distinct keys. */
  lemma ThreeEntries(e1: Fields, e2: Fields, e3: Fields, b1: bool, b2: bool, b3: bool,
                     n1: string, n2: string, n3: string, k: string)
    requires n1 != n2 && n1 != n3 && n2 != n3
    requires Keys(e1) == KeyWhen(b1, n1) && Keys(e2) == KeyWhen(b2, n2) && Keys(e3) == KeyWhen(b3, n3)
    ensures n2 !in Keys(e1) && n3 !in Keys(e1 + e2)
    ensures Keys(e1 + e2 + e3) == KeyWhen(b1, n1) + KeyWhen(b2, n2) + KeyWhen(b3, n3)
    ensures Get(e1 + e2 + e3, k) == if k == n1 then Get(e1, k) else if k == n2 then Get(e2, k) else Get(e3, k)
  {
    KeysAppend(e1, e2);
    KeysAppend(e1 + e2, e3);
    GetAppend(e1, e2, k);
    GetAppend(e1 + e2, e3, k);
    GetFindsKey(e1, k);
    GetFindsKey(e2, k);
    GetFindsKey(e3, k);
  }

  lemma TransitionDataReadsKey(t: IssueTransitionRequest, k: string)
    ensures Keys(TransitionData(t)) == TransitionKeys(t)
    ensures Get(TransitionData(t), k) == TransitionValue(t, k)
  {
    ThreeEntries(Entry(true, "transition", IdObject(t.transitionId)), Optional("fields", t.resolutionName, ResolutionFields),
                 Optional("update", t.comment, CommentUpdate), true, NonEmpty(t.resolutionName), NonEmpty(t.comment),
                 "transition", "fields", "update", k);
    GetEntry(true, "transition", IdObject(t.transitionId), k);
    GetOptional("fields", t.resolutionName, ResolutionFields, k);
    GetOptional("update", t.comment, CommentUpdate, k);
  }

  /** The transition payload always holds the transition id; `fields` is
      present exactly when a resolution name is given and `update` exactly
      when a comment is; no other key appears. */
  lemma TransitionDataReads(t: IssueTransitionRequest)
    ensures Keys(TransitionData(t)) == TransitionKeys(t)
    ensures forall k :: Get(TransitionData(t), k) == TransitionValue(t, k)
  {
    TransitionDataReadsKey(t, "");
    forall k
      ensures Get(TransitionData(t), k) == TransitionValue(t, k)
    {
      TransitionDataReadsKey(t, k);
    }
  }

  /** `IssueTransitionRequest.to_jira_format`: the inner `fields` dict is
      added only when something was put into it. */
  method TransitionToJiraFormat(t: IssueTransitionRequest) returns (payload: Json)
    ensures payload == JObj(TransitionData(t))
  {
    var data: Fields := [("transition", IdObject(t.transitionId))];
    ThreeEntries(Entry(true, "transition", IdObject(t.transitionId)), Optional("fields", t.resolutionName, ResolutionFields),
                 Optional("update", t.comment, CommentUpdate), true, NonEmpty(t.resolutionName), NonEmpty(t.comment),
                 "transition", "fields", "update", "");
    var fields: Fields := [];
    if NonEmpty(t.resolutionName) {
      PutNew(fields, "resolution", NameObject(t.resolutionName.value));
      fields := Put(fields, "resolution", NameObject(t.resolutionName.value));
      assert JObj(fields) == ResolutionFields(t.resolutionName.value);
    }
    assert Truthy(JObj(fields)) <==> NonEmpty(t.resolutionName);
    assert data == Entry(true, "transition", IdObject(t.transitionId));
    ghost var prev := data;
    if Truthy(JObj(fields)) {
      data := Put(data, "fields", JObj(fields));
    }
    PutOptional(prev, "fields", t.resolutionName, ResolutionFields);
    prev := data;
    if NonEmpty(t.comment) {
      data := Put(data, "update", CommentUpdate(t.comment.value));
    }
    PutOptional(prev, "update", t.comment, CommentUpdate);
    payload := JObj(data);
  }

  // ---------------------------------------------------------------------
  // IssueAssignment

  /** `IssueAssignment.to_jira_format`: `{"accountId": id}`, with null (which
      unassigns) when the id is None or empty. */
  function AssignmentJson(accountId: Option<string>): Json {
    if NonEmpty(accountId) then JObj([("accountId", JStr(accountId.value))])
    else JObj([("accountId", JNull)])
  }

  /** The account an assignment payload names, None for an unassignment. */
  function AssignedAccount(j: Json): (r: Option<string>)
    ensures r.Some? ==> r.value != ""
  {
    if j.JObj? && |j.fields| == 1 && j.fields[0].0 == "accountId" && j.fields[0].1.JStr? && j.fields[0].1.s != ""
    then Some(j.fields[0].1.s) else None
  }

  /** The payload holds exactly one key, and it gives back the account when
      one was given. */
  lemma AssignmentRoundTrip(accountId: Option<string>)
    ensures Keys(AssignmentJson(accountId).fields) == ["accountId"]
    ensures AssignedAccount(AssignmentJson(accountId)) == if NonEmpty(accountId) then accountId else None
  {
  }

  /** None and "" both unassign, and an unassignment never equals an
      assignment to a real account. */
  lemma UnassignIsNotAssign(id: string)
    requires id != ""
    ensures AssignmentJson(None) == AssignmentJson(Some(""))
    ensures AssignmentJson(None) != AssignmentJson(Some(id))
  {
    AssignmentRoundTrip(Some(id));
    AssignmentRoundTrip(None);
  }

}
