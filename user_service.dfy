/**
 * services/user_service.py: look-ups of users through the Jira client. The
 * email look-up searches once and re-checks the email itself, since the
 * search matches more than the address.
 */
module UserServices {
  import opened Wrappers
  import opened Text
  import opened Errors
  import opened UserModels
  import opened FakeJira

  /** The re-check `user.email_address and user.email_address.lower() ==
      email.lower()`. */
  predicate HasEmail(u: User, email: string) {
    NonEmpty(u.emailAddress) && SameIgnoringCase(u.emailAddress.value, email)
  }

  /** The first user whose email passes the re-check, None when none does. */
  function FirstByEmail(users: seq<User>, email: string): (r: Option<User>)
    ensures r.Some? ==> HasEmail(r.value, email)
    ensures r.Some? ==> exists k :: 0 <= k < |users| && users[k] == r.value
                                    && forall j :: 0 <= j < k ==> !HasEmail(users[j], email)
    ensures r.None? <==> forall j :: 0 <= j < |users| ==> !HasEmail(users[j], email)
  {
    if users == [] then None
    else if HasEmail(users[0], email) then Some(users[0])
    else
      var rest := FirstByEmail(users[1..], email);
      assert forall j :: 1 <= j < |users| ==> users[j] == users[1..][j - 1];
      rest
  }

  /** What `get_user_by_email` returns for the search's answer. */
  function ByEmail(found: Result<seq<User>, Failure>, email: string): Result<Option<User>, Failure> {
    match found
    case Failure(e) => Failure(e)
    case Success(users) => Success(FirstByEmail(users, email))
  }

  /** A user found by email has that email, ignoring case; users without an
      email are never returned. */
  lemma ByEmailMatches(found: Result<seq<User>, Failure>, email: string)
    requires ByEmail(found, email).Success? && ByEmail(found, email).value.Some?
    ensures found.Success?
    ensures var u := ByEmail(found, email).value.value;
            u in found.value && u.emailAddress.Some? && u.emailAddress.value != ""
            && Lower(u.emailAddress.value) == Lower(email)
  {
    var u := ByEmail(found, email).value.value;
    var k :| 0 <= k < |found.value| && found.value[k] == u;
  }

  /** The search answering with one matching user finds that user. */
  lemma ByEmailSingle(u: User, email: string)
    ensures ByEmail(Success([u]), email) == if HasEmail(u, email) then Success(Some(u)) else Success(None)
  {
  }

  class UserService {
    const client: FakeClient

    constructor (client: FakeClient)
      ensures this.client == client
    {
      this.client := client;
    }

    /** `get_user_by_id`: the client's look-up, passed through. */
    method GetUserById(accountId: string) returns (r: Result<User, Failure>)
      modifies client`calls
      ensures client.calls == old(client.calls) + [Call.GetUser(accountId)]
      ensures r == client.replies.user
    {
      r := client.GetUser(accountId);
    }

    /** `get_user_by_email`: one search for at most one user, then the
        re-check of its email. */
    method GetUserByEmail(email: string) returns (r: Result<Option<User>, Failure>)
      modifies client`calls
      ensures client.calls == old(client.calls) + [Call.SearchUsers(email, 1)]
      ensures r == ByEmail(client.replies.users, email)
    {
      var users := client.SearchUsers(email, 1);
      if users.Failure? {
        return Failure(users.error);
      }
      var us := users.value;
      for i := 0 to |us|
        invariant FirstByEmail(us[i..], email) == FirstByEmail(us, email)
      {
        assert us[i..][0] == us[i] && us[i..][1..] == us[i + 1..];
        var user := us[i];
        if NonEmpty(user.emailAddress) && Lower(user.emailAddress.value) == Lower(email) {
          return Success(Some(user));
        }
      }
      assert us[|us|..] == [];
      r := Success(None);
    }

    /** `search_users`: arguments passed to the client unchanged. */
    method SearchUsers(query: string, maxResults: int := 50) returns (r: Result<seq<User>, Failure>)
      modifies client`calls
      ensures client.calls == old(client.calls) + [Call.SearchUsers(query, maxResults)]
      ensures r == client.replies.users
    {
      r := client.SearchUsers(query, maxResults);
    }

    /** `find_assignable_users_for_projects`: arguments passed to the client
        unchanged. */
    method FindAssignableUsersForProjects(projectKeys: seq<string>, query: Option<string> := None, maxResults: int := 50)
      returns (r: Result<seq<User>, Failure>)
      modifies client`calls
      ensures client.calls == old(client.calls) + [Call.FindAssignableUsers(projectKeys, query, maxResults)]
      ensures r == client.replies.users
    {
      r := client.FindAssignableUsers(projectKeys, query, maxResults);
    }

    /** `get_user_by_identifier`: the account-id look-up, and the email
        look-up only when that raises (whatever it raises). */
    method GetUserByIdentifier(identifier: string) returns (r: Result<Option<User>, Failure>)
      modifies client`calls
      ensures client.replies.user.Success? ==>
                client.calls == old(client.calls) + [Call.GetUser(identifier)]
                && r == Success(Some(client.replies.user.value))
      ensures client.replies.user.Failure? ==>
                client.calls == old(client.calls) + [Call.GetUser(identifier), Call.SearchUsers(identifier, 1)]
                && r == ByEmail(client.replies.users, identifier)
    {
      var user := GetUserById(identifier);
      if user.Success? {
        return Success(Some(user.value));
      }
      r := GetUserByEmail(identifier);
    }
  }
}
