/** The Cognito user pool as the two Cognito lambdas see it: users with
    attributes, the groups each belongs to, and the way a listing response is
    turned into user/email pairs (`compile_users`) or bare emails
    (`compile_emails`). The pool is abstract state; the SDK calls become
    functions on it. */
module CognitoPool {
  import opened Results

  /** The three groups the application uses. */
  const Admin := "admin"
  const Approved := "approved"
  const Unapproved := "unapproved"

  /** One `{Name, Value}` entry of a user's `Attributes`. */
  datatype Attribute = Attribute(name: string, value: string)

  /** One entry of a listing response's `Users`. */
  datatype PoolUser = PoolUser(username: string, attributes: seq<Attribute>)

  /** One `{user_name, email}` record built by `compile_users`. */
  datatype Listing = Listing(userName: string, email: string)

  /** A user of the pool with the groups it belongs to. */
  datatype Account = Account(user: PoolUser, groups: set<string>)

  /** The pool, in the order Cognito lists it. */
  type Pool = seq<Account>

  /** An email sent through SES: recipients, subject and text body. */
  datatype Mail = Mail(to: seq<string>, subject: string, body: string)

  /** The values of the attributes named `email`, in order. */
  function EmailsOf(attributes: seq<Attribute>): (r: seq<string>)
    ensures |r| <= |attributes|
    ensures forall e :: e in r <==> exists k | 0 <= k < |attributes| :: attributes[k].name == "email" && attributes[k].value == e
  {
    if |attributes| == 0 then []
    else
      var rest := EmailsOf(attributes[1..]);
      assert forall k | 1 <= k < |attributes| :: attributes[k] == attributes[1..][k - 1];
      (if attributes[0].name == "email" then [attributes[0].value] else []) + rest
  }

  /** The records one user contributes: one per email attribute. */
  function ListingsOf(u: PoolUser): (r: seq<Listing>)
    ensures |r| == |EmailsOf(u.attributes)|
    ensures forall k | 0 <= k < |r| :: r[k] == Listing(u.username, EmailsOf(u.attributes)[k])
  {
    var emails := EmailsOf(u.attributes);
    seq(|emails|, k requires 0 <= k < |emails| => Listing(u.username, emails[k]))
  }

  /** `compile_users`: one `{user_name, email}` per email attribute, users in
      response order; a user with no email attribute contributes nothing. */
  function CompileUsers(users: seq<PoolUser>): (r: seq<Listing>)
    ensures forall l :: l in r <==>
      exists i | 0 <= i < |users| :: users[i].username == l.userName && l.email in EmailsOf(users[i].attributes)
  {
    if |users| == 0 then []
    else
      var rest := CompileUsers(users[1..]);
      assert forall i | 1 <= i < |users| :: users[i] == users[1..][i - 1];
      ListingsOf(users[0]) + rest
  }

  /** The records of a concatenated response are those of its parts, in
      order. */
  lemma {:induction false} CompileUsersAppend(a: seq<PoolUser>, b: seq<PoolUser>)
    ensures CompileUsers(a + b) == CompileUsers(a) + CompileUsers(b)
    decreases |a|
  {
    if |a| > 0 {
      assert (a + b)[1..] == a[1..] + b;
      CompileUsersAppend(a[1..], b);
    } else {
      assert a + b == b;
    }
  }

  /** Every email attribute of every user, in response order. */
  function AllEmails(users: seq<PoolUser>): (r: seq<string>)
    ensures forall e :: e in r <==> exists i | 0 <= i < |users| :: e in EmailsOf(users[i].attributes)
    ensures forall i | 0 <= i < |users| :: |EmailsOf(users[i].attributes)| <= |r|
  {
    if |users| == 0 then []
    else
      var rest := AllEmails(users[1..]);
      assert forall i | 1 <= i < |users| :: users[i] == users[1..][i - 1];
      EmailsOf(users[0].attributes) + rest
  }

  /** The emails are exactly the email column of `compile_users`'s records,
      position by position. */
  lemma {:induction false} AllEmailsAreListed(users: seq<PoolUser>)
    ensures |AllEmails(users)| == |CompileUsers(users)|
    ensures forall j | 0 <= j < |AllEmails(users)| :: AllEmails(users)[j] == CompileUsers(users)[j].email
    decreases |users|
  {
    if |users| > 0 {
      AllEmailsAreListed(users[1..]);
    }
  }

  /** `compile_emails`: every email attribute in response order, and an
      error when there is none. */
  function CompileEmails(users: seq<PoolUser>): (r: Result<seq<string>>)
    ensures r.Ok? <==> exists i | 0 <= i < |users| :: |EmailsOf(users[i].attributes)| > 0
    ensures r.Ok? ==> |r.value| > 0 && forall e :: e in r.value <==> exists i | 0 <= i < |users| :: e in EmailsOf(users[i].attributes)
    ensures r.Ok? ==> r.value == AllEmails(users)
    ensures r.Err? ==> r.error == RuntimeError("Error: No email addresses found")
  {
    var emails := AllEmails(users);
    if |emails| == 0 then
      Err(RuntimeError("Error: No email addresses found"))
    else
      assert emails[0] in emails;
      Ok(emails)
  }

  /** Whether an account is listed by a call naming `group` (`None` lists
      the whole pool). */
  predicate InScope(a: Account, group: Option<string>) {
    group.None? || group.value in a.groups
  }

  /** `list_users` (group `None`) and `list_users_in_group`: the users in
      scope, in pool order. */
  function ListUsers(pool: Pool, group: Option<string>): (r: seq<PoolUser>)
    ensures |r| <= |pool|
    ensures forall u :: u in r <==> exists i | 0 <= i < |pool| :: pool[i].user == u && InScope(pool[i], group)
    ensures group.None? ==> |r| == |pool| && forall i | 0 <= i < |pool| :: r[i] == pool[i].user
  {
    if |pool| == 0 then []
    else
      var rest := ListUsers(pool[1..], group);
      assert forall i | 1 <= i < |pool| :: pool[i] == pool[1..][i - 1];
      (if InScope(pool[0], group) then [pool[0].user] else []) + rest
  }

  /** Cognito user names are unique within a pool. */
  predicate UniqueNames(pool: Pool) {
    forall i, j | 0 <= i < j < |pool| :: pool[i].user.username != pool[j].user.username
  }

  /** The account called `name`, if any. */
  function AccountNamed(pool: Pool, name: string): (r: Option<Account>)
    ensures r.Some? <==> exists i | 0 <= i < |pool| :: pool[i].user.username == name
    ensures r.Some? ==> r.value in pool && r.value.user.username == name
  {
    if |pool| == 0 then None
    else if pool[0].user.username == name then Some(pool[0])
    else
      assert forall i | 1 <= i < |pool| :: pool[i] == pool[1..][i - 1];
      AccountNamed(pool[1..], name)
  }

  /** `admin_remove_user_from_group` / `admin_add_user_to_group`: the named
      account leaves the groups in `drop` and joins those in `add`. */
  function Regroup(pool: Pool, name: string, drop: set<string>, add: set<string>): (r: Pool)
    ensures |r| == |pool|
    ensures forall i | 0 <= i < |pool| :: r[i].user == pool[i].user
    ensures forall i | 0 <= i < |pool| && pool[i].user.username != name :: r[i] == pool[i]
    ensures forall i | 0 <= i < |pool| && pool[i].user.username == name :: r[i].groups == pool[i].groups - drop + add
  {
    seq(|pool|, i requires 0 <= i < |pool| =>
      if pool[i].user.username == name then Account(pool[i].user, pool[i].groups - drop + add) else pool[i])
  }

  /** `admin_delete_user`: the named account is gone, the others stay in
      order. */
  function DeleteUser(pool: Pool, name: string): (r: Pool)
    ensures |r| <= |pool|
    ensures forall a :: a in r <==> a in pool && a.user.username != name
  {
    if |pool| == 0 then []
    else
      var rest := DeleteUser(pool[1..], name);
      assert forall a :: a in pool <==> a == pool[0] || a in pool[1..];
      (if pool[0].user.username == name then [] else [pool[0]]) + rest
  }

  /** The accounts after the first still have unique names, none of them
      the first one's. */
  lemma UniqueSplit(pool: Pool)
    requires UniqueNames(pool) && |pool| > 0
    ensures UniqueNames(pool[1..])
    ensures AccountNamed(pool[1..], pool[0].user.username).None?
  {
    assert forall i | 0 <= i < |pool[1..]| :: pool[1..][i] == pool[i + 1];
  }

  /** After a regrouping, the named account has its new groups and every
      other account is found as before; names stay unique. */
  lemma {:induction false} RegroupNamed(pool: Pool, name: string, drop: set<string>, add: set<string>, other: string)
    requires UniqueNames(pool)
    ensures UniqueNames(Regroup(pool, name, drop, add))
    ensures AccountNamed(pool, name).Some? ==>
      AccountNamed(Regroup(pool, name, drop, add), name)
        == Some(Account(AccountNamed(pool, name).value.user, AccountNamed(pool, name).value.groups - drop + add))
    ensures AccountNamed(pool, name).None? ==> AccountNamed(Regroup(pool, name, drop, add), name).None?
    ensures other != name ==> AccountNamed(Regroup(pool, name, drop, add), other) == AccountNamed(pool, other)
    decreases |pool|
  {
    var r := Regroup(pool, name, drop, add);
    if |pool| > 0 {
      assert Regroup(pool, name, drop, add)[1..] == Regroup(pool[1..], name, drop, add);
      RegroupNamed(pool[1..], name, drop, add, other);
    }
  }

  /** After a deletion, nobody has the deleted name and every other account
      is found as before. */
  lemma {:induction false} DeleteNamed(pool: Pool, name: string, other: string)
    ensures AccountNamed(DeleteUser(pool, name), name).None?
    ensures other != name ==> AccountNamed(DeleteUser(pool, name), other) == AccountNamed(pool, other)
    decreases |pool|
  {
    if |pool| > 0 {
      DeleteNamed(pool[1..], name, other);
      var rest := DeleteUser(pool[1..], name);
      if pool[0].user.username == name {
        assert DeleteUser(pool, name) == rest;
      } else {
        assert DeleteUser(pool, name) == [pool[0]] + rest;
        assert ([pool[0]] + rest)[0] == pool[0] && ([pool[0]] + rest)[1..] == rest;
      }
    }
  }

  /** Deleting an account keeps names unique. */
  lemma {:induction false} DeleteUnique(pool: Pool, name: string)
    requires UniqueNames(pool)
    ensures UniqueNames(DeleteUser(pool, name))
    decreases |pool|
  {
    if |pool| > 0 {
      UniqueSplit(pool);
      DeleteUnique(pool[1..], name);
      var rest := DeleteUser(pool[1..], name);
      if pool[0].user.username != name {
        // the first account's name occurs nowhere in the rest
        DeleteNamed(pool[1..], name, pool[0].user.username);
        assert forall k | 0 <= k < |rest| :: rest[k].user.username != pool[0].user.username by {
          forall k | 0 <= k < |rest| ensures rest[k].user.username != pool[0].user.username {
            assert rest[k] in rest;
          }
        }
        assert DeleteUser(pool, name) == [pool[0]] + rest;
      }
    }
  }
}
