/**
 * models/user.py: User, UserSearch and UserSearchResult as records, each with
 * the decoder pydantic applies to a JSON object and the encoder of
 * `model_dump(by_alias=True)`, and decoding proved to undo encoding.
 */
module UserModels {
  import opened Wrappers
  import opened Json
  import opened Decoding

  datatype User = User(
    accountId: string,
    emailAddress: Option<string>,
    displayName: string,
    active: bool,
    avatarUrls: Option<StrMap>,
    timeZone: Option<string>,
    locale: Option<string>)

  /** `User(**data)`: the value offered for each field (alias first), then
      validated as `UserFrom` says. */
  function DecodeUser(j: Json): (r: Result<User, DecodeError>)
    ensures !j.JObj? ==> r == Failure(NotAnObject)
    ensures j.JObj? && Lookup(j.fields, "accountId", "account_id").None? ==> r == Failure(Missing("account_id"))
    ensures r.Success? ==> Lookup(j.fields, "accountId", "account_id") == Some(JStr(r.value.accountId))
    ensures r.Success? ==> Lookup(j.fields, "displayName", "display_name") == Some(JStr(r.value.displayName))
  {
    if !j.JObj? then Failure(NotAnObject)
    else
      var v := Lookups(j.fields, UserKeys, UserNames);
      UserFrom(v[0], v[1], v[2], v[3], v[4], v[5], v[6])
  }

  /** Validation of the values offered for the fields of User: `account_id`
      and `display_name` are required strings, `active` defaults to true and
      every other field to None. */
  function UserFrom(accountId: Option<Json>, emailAddress: Option<Json>, displayName: Option<Json>,
                    active: Option<Json>, avatarUrls: Option<Json>, timeZone: Option<Json>,
                    locale: Option<Json>): (r: Result<User, DecodeError>)
    ensures accountId.None? ==> r == Failure(Missing("account_id"))
    ensures r.Success? ==> accountId == Some(JStr(r.value.accountId)) && displayName == Some(JStr(r.value.displayName))
    ensures r.Success? && active.None? ==> r.value.active
    ensures r.Success? && emailAddress.None? ==> r.value.emailAddress.None?
    ensures r.Success? && avatarUrls.None? ==> r.value.avatarUrls.None?
    ensures r.Success? && timeZone.None? ==> r.value.timeZone.None?
    ensures r.Success? && locale.None? ==> r.value.locale.None?
  {
    var accountId :- ReqStr(accountId, "account_id");
    var emailAddress :- OptStr(emailAddress, "email_address");
    var displayName :- ReqStr(displayName, "display_name");
    var active :- BoolOr(active, "active", true);
    var avatarUrls :- OptStrMap(avatarUrls, "avatar_urls");
    var timeZone :- OptStr(timeZone, "time_zone");
    var locale :- OptStr(locale, "locale");
    Success(User(accountId, emailAddress, displayName, active, avatarUrls, timeZone, locale))
  }

  /** The aliases and the names of User's fields, in declaration order. */
  const UserKeys := ["accountId", "emailAddress", "displayName", "active", "avatarUrls", "timeZone", "locale"]
  const UserNames := ["account_id", "email_address", "display_name", "active", "avatar_urls", "time_zone", "locale"]

  function UserValues(u: User): seq<Json> {
    [JStr(u.accountId), OptStrJson(u.emailAddress), JStr(u.displayName), JBool(u.active),
     OptStrMapJson(u.avatarUrls), OptStrJson(u.timeZone), OptStrJson(u.locale)]
  }

  /** `model_dump(by_alias=True)`: every field under its alias, in declaration
      order, None written as null. */
  function UserJson(u: User): Json {
    JObj(Zip(UserKeys, UserValues(u)))
  }

  /** Validation accepts the values the encoder writes and rebuilds u. */
  lemma UserFromValues(u: User)
    ensures var vs := UserValues(u); UserFrom(Some(vs[0]), Some(vs[1]), Some(vs[2]), Some(vs[3]), Some(vs[4]), Some(vs[5]), Some(vs[6])) == Success(u)
  {
    ReadOptStr(u.emailAddress, "email_address");
    ReadOptStrMap(u.avatarUrls, "avatar_urls");
    ReadOptStr(u.timeZone, "time_zone");
    ReadOptStr(u.locale, "locale");
  }

  lemma UserRoundTrip(u: User)
    ensures DecodeUser(UserJson(u)) == Success(u)
  {
    assert NoDupFrom(UserKeys, 0);
    LookupsOfZip(UserKeys, UserNames, UserValues(u));
    UserFromValues(u);
  }

  /** populate_by_name: the same user written under the field names instead
      of the aliases decodes to that user as well. */
  lemma UserByFieldNames(u: User)
    ensures DecodeUser(JObj(Zip(UserNames, UserValues(u)))) == Success(u)
  {
    assert NoDupFrom(UserNames, 0);
    LookupsOfNameZip(UserKeys, UserNames, UserValues(u));
    UserFromValues(u);
  }

  /** An empty object is rejected: the account id is required. */
  lemma UserRequiresAccountId()
    ensures DecodeUser(JObj([])) == Failure(Missing("account_id"))
  {
  }

  /** The display name is required too. */
  lemma UserRequiresDisplayName(a: string)
    ensures DecodeUser(JObj([("accountId", JStr(a))])) == Failure(Missing("display_name"))
  {
    var fs := [("accountId", JStr(a))];
    GetAt(fs, "accountId", 0);
    GetAbsent(fs, "emailAddress");
    GetAbsent(fs, "email_address");
    GetAbsent(fs, "displayName");
    GetAbsent(fs, "display_name");
  }

  /** Only the two required fields given, under either spelling: the defaults
      fill the rest. */
  lemma UserDefaults(a: string, d: string)
    ensures DecodeUser(JObj([("accountId", JStr(a)), ("displayName", JStr(d))])) == Success(User(a, None, d, true, None, None, None))
    ensures DecodeUser(JObj([("account_id", JStr(a)), ("display_name", JStr(d))])) == Success(User(a, None, d, true, None, None, None))
  {
    var fs := [("accountId", JStr(a)), ("displayName", JStr(d))];
    GetAt(fs, "accountId", 0);
    GetAt(fs, "displayName", 1);
    AbsentOptionalUserFields(fs);
    var gs := [("account_id", JStr(a)), ("display_name", JStr(d))];
    GetAbsent(gs, "accountId");
    GetAbsent(gs, "displayName");
    GetAt(gs, "account_id", 0);
    GetAt(gs, "display_name", 1);
    AbsentOptionalUserFields(gs);
  }

  /** An object that offers none of the optional fields of User reads None for each. */
  lemma AbsentOptionalUserFields(fs: Fields)
    requires forall j :: 0 <= j < |fs| ==> fs[j].0 in ["accountId", "account_id", "displayName", "display_name"]
    ensures Lookup(fs, "emailAddress", "email_address") == None
    ensures Lookup(fs, "active", "active") == None
    ensures Lookup(fs, "avatarUrls", "avatar_urls") == None
    ensures Lookup(fs, "timeZone", "time_zone") == None
    ensures Lookup(fs, "locale", "locale") == None
  {
    GetAbsent(fs, "emailAddress");
    GetAbsent(fs, "email_address");
    GetAbsent(fs, "active");
    GetAbsent(fs, "avatarUrls");
    GetAbsent(fs, "avatar_urls");
    GetAbsent(fs, "timeZone");
    GetAbsent(fs, "time_zone");
    GetAbsent(fs, "locale");
  }

  /** When both spellings are present the alias is the one read. */
  lemma UserAliasWins(a: string, b: string, d: string)
    ensures DecodeUser(JObj([("account_id", JStr(b)), ("accountId", JStr(a)), ("displayName", JStr(d))])) == Success(User(a, None, d, true, None, None, None))
  {
    var fs := [("account_id", JStr(b)), ("accountId", JStr(a)), ("displayName", JStr(d))];
    GetAt(fs, "accountId", 1);
    GetAt(fs, "displayName", 2);
    AbsentOptionalUserFields(fs);
  }

  /** Keys the model does not declare are ignored. */
  lemma UserIgnoresUnknownKey(fs: Fields, k: string, v: Json)
    requires k !in ["accountId", "account_id", "emailAddress", "email_address", "displayName", "display_name",
                    "active", "avatarUrls", "avatar_urls", "timeZone", "time_zone", "locale"]
    ensures DecodeUser(JObj(fs + [(k, v)])) == DecodeUser(JObj(fs))
  {
    LookupIgnoresOtherKey(fs, "accountId", "account_id", k, v);
    LookupIgnoresOtherKey(fs, "emailAddress", "email_address", k, v);
    LookupIgnoresOtherKey(fs, "displayName", "display_name", k, v);
    LookupIgnoresOtherKey(fs, "active", "active", k, v);
    LookupIgnoresOtherKey(fs, "avatarUrls", "avatar_urls", k, v);
    LookupIgnoresOtherKey(fs, "timeZone", "time_zone", k, v);
    LookupIgnoresOtherKey(fs, "locale", "locale", k, v);
  }

  /** Each user of a list read back from the encoding of the list. */
  lemma UsersRoundTrip(us: seq<User>)
    ensures DecodeList(ListJson(us, UserJson), DecodeUser) == Success(us)
  {
    var items := ListJson(us, UserJson);
    forall i | 0 <= i < |us|
      ensures DecodeUser(items[i]) == Success(us[i])
    {
      UserRoundTrip(us[i]);
    }
    DecodeListPointwise(items, DecodeUser, us);
  }

  // ---------------------------------------------------------------------

  datatype UserSearch = UserSearch(query: string, projectKeys: Option<string>, startAt: int, maxResults: int)

  /** `UserSearch(**data)`: `query` is required; `project_keys` defaults to None,
      `start_at` to 0 and `max_results` to 50. */
  function DecodeUserSearch(j: Json): (r: Result<UserSearch, DecodeError>)
    ensures !j.JObj? ==> r == Failure(NotAnObject)
    ensures j.JObj? && Get(j.fields, "query").None? ==> r == Failure(Missing("query"))
    ensures r.Success? ==> Get(j.fields, "query") == Some(JStr(r.value.query))
    ensures r.Success? && Get(j.fields, "project_keys").None? ==> r.value.projectKeys.None?
    ensures r.Success? && Get(j.fields, "start_at").None? ==> r.value.startAt == 0
    ensures r.Success? && Get(j.fields, "max_results").None? ==> r.value.maxResults == 50
  {
    if !j.JObj? then Failure(NotAnObject)
    else
      var fs := j.fields;
      var query :- ReqStr(Get(fs, "query"), "query");
      var projectKeys :- OptStr(Get(fs, "project_keys"), "project_keys");
      var startAt :- IntOr(Get(fs, "start_at"), "start_at", 0);
      var maxResults :- IntOr(Get(fs, "max_results"), "max_results", 50);
      Success(UserSearch(query, projectKeys, startAt, maxResults))
  }

  function UserSearchJson(s: UserSearch): Json {
    JObj([("query", JStr(s.query)), ("project_keys", OptStrJson(s.projectKeys)),
          ("start_at", JInt(s.startAt)), ("max_results", JInt(s.maxResults))])
  }

  lemma UserSearchRoundTrip(s: UserSearch)
    ensures DecodeUserSearch(UserSearchJson(s)) == Success(s)
  {
    var fs := UserSearchJson(s).fields;
    GetAt(fs, "query", 0);
    GetAt(fs, "project_keys", 1);
    GetAt(fs, "start_at", 2);
    GetAt(fs, "max_results", 3);
    ReadOptStr(s.projectKeys, "project_keys");
  }

  /** `UserSearch(query="john", max_results=25)` keeps the other defaults. */
  lemma UserSearchDefaults(q: string, m: int)
    ensures DecodeUserSearch(JObj([("query", JStr(q)), ("max_results", JInt(m))])) == Success(UserSearch(q, None, 0, m))
  {
    var fs := [("query", JStr(q)), ("max_results", JInt(m))];
    GetAt(fs, "query", 0);
    GetAbsent(fs, "project_keys");
    GetAbsent(fs, "start_at");
    GetAt(fs, "max_results", 1);
  }

  datatype UserSearchResult = UserSearchResult(users: seq<User>, total: int, startAt: int, maxResults: int)

  /** `UserSearchResult(**data)`: every field is optional, with defaults [], 0, 0 and 50. */
  function DecodeUserSearchResult(j: Json): (r: Result<UserSearchResult, DecodeError>)
    ensures !j.JObj? ==> r == Failure(NotAnObject)
    ensures r.Success? && Get(j.fields, "users").None? ==> r.value.users == []
    ensures r.Success? && Get(j.fields, "total").None? ==> r.value.total == 0
    ensures r.Success? && Get(j.fields, "start_at").None? ==> r.value.startAt == 0
    ensures r.Success? && Get(j.fields, "max_results").None? ==> r.value.maxResults == 50
  {
    if !j.JObj? then Failure(NotAnObject)
    else
      var fs := j.fields;
      var users :- match Get(fs, "users")
        case None => Success([])
        case Some(JArr(items)) => DecodeList(items, DecodeUser)
        case Some(_) => Failure(WrongType("users"));
      var total :- IntOr(Get(fs, "total"), "total", 0);
      var startAt :- IntOr(Get(fs, "start_at"), "start_at", 0);
      var maxResults :- IntOr(Get(fs, "max_results"), "max_results", 50);
      Success(UserSearchResult(users, total, startAt, maxResults))
  }

  function UserSearchResultJson(s: UserSearchResult): Json {
    JObj([("users", JArr(ListJson(s.users, UserJson))), ("total", JInt(s.total)),
          ("start_at", JInt(s.startAt)), ("max_results", JInt(s.maxResults))])
  }

  lemma UserSearchResultRoundTrip(s: UserSearchResult)
    ensures DecodeUserSearchResult(UserSearchResultJson(s)) == Success(s)
  {
    var fs := UserSearchResultJson(s).fields;
    GetAt(fs, "users", 0);
    GetAt(fs, "total", 1);
    GetAt(fs, "start_at", 2);
    GetAt(fs, "max_results", 3);
    UsersRoundTrip(s.users);
  }

  lemma UserSearchResultDefaults()
    ensures DecodeUserSearchResult(JObj([])) == Success(UserSearchResult([], 0, 0, 50))
  {
  }
}
