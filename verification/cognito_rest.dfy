/** The Cognito REST lambda: the user-lifecycle actions (approve, promote,
    close, deny, delete) on the pool, and the HTTP routing and validation in
    front of them. SES mail is recorded as the list of mails sent. */
module CognitoRest {
  import opened Results
  import opened Text
  import opened Sorting
  import opened CognitoPool

  const HttpOk := 200
  /** Not defined in the shared constants module; 204 is No Content in
      section 15.3.5 of RFC 9110. */
  const HttpNoContent := 204
  const HttpBadRequest := 400
  const HttpUnauthorized := 401

  /** The first record for `name` in a `compile_users` result (the handlers'
      search loop with its `break`). */
  function FindListing(listings: seq<Listing>, name: string): (r: Option<Listing>)
    ensures r.Some? <==> exists i | 0 <= i < |listings| :: listings[i].userName == name
    ensures r.Some? ==> exists i | 0 <= i < |listings| ::
      listings[i] == r.value && r.value.userName == name && forall j | 0 <= j < i :: listings[j].userName != name
  {
    if |listings| == 0 then None
    else if listings[0].userName == name then Some(listings[0])
    else
      var rest := FindListing(listings[1..], name);
      assert forall i | 1 <= i < |listings| :: listings[i] == listings[1..][i - 1];
      if rest.Some? then
        var i :| 0 <= i < |listings[1..]| && listings[1..][i] == rest.value && rest.value.userName == name
          && forall j | 0 <= j < i :: listings[1..][j].userName != name;
        assert listings[i + 1] == rest.value;
        rest
      else rest
  }

  lemma {:induction false} FindListingAppend(a: seq<Listing>, b: seq<Listing>, name: string)
    ensures FindListing(a + b, name) == if FindListing(a, name).Some? then FindListing(a, name) else FindListing(b, name)
    decreases |a|
  {
    if |a| == 0 {
      assert a + b == b;
    } else {
      assert (a + b)[1..] == a[1..] + b;
      FindListingAppend(a[1..], b, name);
    }
  }

  /** What the search finds in a pool with unique names: the named account's
      first email, when the account is listed and has an email attribute. */
  function Found(pool: Pool, group: Option<string>, name: string): Option<Listing> {
    match AccountNamed(pool, name)
    case None => None
    case Some(a) =>
      if InScope(a, group) && |EmailsOf(a.user.attributes)| > 0
      then Some(Listing(name, EmailsOf(a.user.attributes)[0])) else None
  }

  /** A pool without `name` lists no record for it. */
  lemma AbsentNotListed(pool: Pool, group: Option<string>, name: string)
    requires AccountNamed(pool, name).None?
    ensures FindListing(CompileUsers(ListUsers(pool, group)), name).None?
  {
    var listed := CompileUsers(ListUsers(pool, group));
    var users := ListUsers(pool, group);
    forall i | 0 <= i < |listed| ensures listed[i].userName != name {
      var l := listed[i];
      assert l in listed;
      var k :| 0 <= k < |users| && users[k].username == l.userName && l.email in EmailsOf(users[k].attributes);
      assert users[k] in users;
      var m :| 0 <= m < |pool| && pool[m].user == users[k] && InScope(pool[m], group);
    }
  }

  /** The search in one user's records. */
  lemma FindInUser(u: PoolUser, name: string)
    ensures FindListing(CompileUsers([u]), name)
      == if u.username == name && |EmailsOf(u.attributes)| > 0
         then Some(Listing(name, EmailsOf(u.attributes)[0])) else None
  {
    var ls := CompileUsers([u]);
    assert ls == ListingsOf(u) + CompileUsers([]);
    if |ls| > 0 {
      assert ls[0] == Listing(u.username, EmailsOf(u.attributes)[0]);
    }
  }

  /** The search looks at the first account's records, then the rest. */
  lemma FindStep(pool: Pool, group: Option<string>, name: string)
    requires |pool| > 0
    ensures FindListing(CompileUsers(ListUsers(pool, group)), name)
      == if InScope(pool[0], group) && pool[0].user.username == name && |EmailsOf(pool[0].user.attributes)| > 0
         then Some(Listing(name, EmailsOf(pool[0].user.attributes)[0]))
         else FindListing(CompileUsers(ListUsers(pool[1..], group)), name)
  {
    var head := if InScope(pool[0], group) then [pool[0].user] else [];
    var tail := ListUsers(pool[1..], group);
    assert ListUsers(pool, group) == head + tail;
    CompileUsersAppend(head, tail);
    FindListingAppend(CompileUsers(head), CompileUsers(tail), name);
    FindInUser(pool[0].user, name);
  }

  lemma {:induction false} FindInPool(pool: Pool, group: Option<string>, name: string)
    requires UniqueNames(pool)
    ensures FindListing(CompileUsers(ListUsers(pool, group)), name) == Found(pool, group, name)
    decreases |pool|
  {
    if |pool| > 0 {
      FindStep(pool, group, name);
      UniqueSplit(pool);
      if pool[0].user.username == name {
        AbsentNotListed(pool[1..], group, name);
      } else {
        FindInPool(pool[1..], group, name);
      }
    }
  }

  /** The five POST actions. */
  datatype Action = Approve | Promote | Close | Deny | Delete

  /** Whom each action searches: approve and deny the `unapproved` group,
      promote the `approved` group, close and delete the whole pool. */
  function Scope(action: Action): Option<string> {
    match action
    case Approve => Some(Unapproved)
    case Deny => Some(Unapproved)
    case Promote => Some(Approved)
    case Close => None
    case Delete => None
  }

  /** The change each action makes to the pool. */
  function Apply(action: Action, pool: Pool, name: string): Pool {
    match action
    case Approve => Regroup(pool, name, {Unapproved}, {Approved})
    case Promote => Regroup(pool, name, {}, {Admin})
    case Close => DeleteUser(pool, name)
    case Deny => DeleteUser(pool, name)
    case Delete => DeleteUser(pool, name)
  }

  /** The mail sent to the user concerned. */
  function UserMail(action: Action, email: string): Mail {
    match action
    case Approve => Mail([email], "Suigetsukan Curriculum Account Approved!",
      "Congratulations! Your account has been approved by Sensei.")
    case Promote => Mail([email], "Suigetsukan Curriculum Account Promoted!",
      "Congratulations! Your account has been promoted to Administrator.")
    case Close => Mail([email], "Suigetsukan Curriculum Account Closed!",
      "Account closed. We are sorry to see you go!")
    case Deny => Mail([email], "Suigetsukan Curriculum Account Denied!",
      "We are sorry! Access to Suigetsukan Curriculum has been denied.")
    case Delete => Mail([email], "Suigetsukan Curriculum Account Deleted!",
      "Your account has been deleted by the administrator")
  }

  /** The text each action returns. */
  function Confirmation(action: Action, email: string): string {
    match action
    case Approve => "The user " + email + " has been approved"
    case Promote => "The user " + email + " has been promoted"
    case Close => "The user " + email + " account has been closed"
    case Deny => "The user " + email + " has been denied access"
    case Delete => "The user " + email + " account has been deleted"
  }

  /** The error each action raises when the user is not found. */
  function NotFound(action: Action): string {
    match action
    case Approve => "User not found. Could not approve."
    case Promote => "User not found. Could not promote."
    case Close => "User not found for closure"
    case Deny => "User not found for denial"
    case Delete => "User not found for deletion"
  }

  /** The result of an action: the new pool, the text returned and the mail
      sent. */
  datatype Outcome = Outcome(pool: Pool, body: string, mails: seq<Mail>)

  /** `approve_handler`, `promote_handler`, `close_handler`, `deny_handler`
      and `delete_handler`: find the first record for the user in the
      action's listing, change the pool, mail the user. Only the delete
      handler tests the email it found, so an empty email makes just that
      action fail. */
  function Act(action: Action, name: string, pool: Pool): (r: Result<Outcome>)
    ensures r.Err? ==> r.error == RuntimeError(NotFound(action))
    ensures r.Ok? ==> r.value.pool == Apply(action, pool, name)
    ensures var found := FindListing(CompileUsers(ListUsers(pool, Scope(action))), name);
      && (r.Ok? <==> found.Some? && (action == Delete ==> found.value.email != ""))
      && (r.Ok? ==> r.value.body == Confirmation(action, found.value.email) && r.value.mails == [UserMail(action, found.value.email)])
  {
    match FindListing(CompileUsers(ListUsers(pool, Scope(action))), name)
    case None => Err(RuntimeError(NotFound(action)))
    case Some(listing) =>
      if action == Delete && listing.email == "" then Err(RuntimeError(NotFound(action)))
      else Ok(Outcome(Apply(action, pool, name), Confirmation(action, listing.email), [UserMail(action, listing.email)]))
  }

  /** When an action succeeds: the user exists, is in the action's group and
      has an email attribute, and for delete the first email is not empty. */
  lemma ActSucceeds(action: Action, name: string, pool: Pool)
    requires UniqueNames(pool)
    ensures var a := AccountNamed(pool, name);
      Act(action, name, pool).Ok? <==>
        && a.Some? && InScope(a.value, Scope(action)) && |EmailsOf(a.value.user.attributes)| > 0
        && (action == Delete ==> EmailsOf(a.value.user.attributes)[0] != "")
  {
    FindInPool(pool, Scope(action), name);
    assert FindListing(CompileUsers(ListUsers(pool, Scope(action))), name) == Found(pool, Scope(action), name);
  }

  /** A successful action replies with, and mails, the user's first email. */
  lemma ActReply(action: Action, name: string, pool: Pool)
    requires UniqueNames(pool)
    requires Act(action, name, pool).Ok?
    ensures AccountNamed(pool, name).Some? && |EmailsOf(AccountNamed(pool, name).value.user.attributes)| > 0
    ensures var email := EmailsOf(AccountNamed(pool, name).value.user.attributes)[0];
      && Act(action, name, pool).value.body == Confirmation(action, email)
      && Act(action, name, pool).value.mails == [UserMail(action, email)]
  {
    FindInPool(pool, Scope(action), name);
    assert FindListing(CompileUsers(ListUsers(pool, Scope(action))), name) == Found(pool, Scope(action), name);
  }

  /** The lifecycle on an existing user: approve moves it from
      `unapproved` to `approved`, promote adds `admin` and keeps `approved`,
      and deny, close and delete remove it. */
  lemma ApplyEffect(action: Action, name: string, pool: Pool)
    requires UniqueNames(pool) && AccountNamed(pool, name).Some?
    ensures var a := AccountNamed(pool, name).value;
      var after := AccountNamed(Apply(action, pool, name), name);
      && (action == Approve ==> after == Some(Account(a.user, a.groups - {Unapproved} + {Approved})))
      && (action == Promote ==> after == Some(Account(a.user, a.groups + {Admin})))
      && (action == Close || action == Deny || action == Delete ==> after == None)
    ensures UniqueNames(Apply(action, pool, name))
  {
    var a := AccountNamed(pool, name).value;
    match action
    case Approve => RegroupNamed(pool, name, {Unapproved}, {Approved}, name);
    case Promote =>
      RegroupNamed(pool, name, {}, {Admin}, name);
      assert a.groups - {} + {Admin} == a.groups + {Admin};
    case Close => DeleteNamed(pool, name, name); DeleteUnique(pool, name);
    case Deny => DeleteNamed(pool, name, name); DeleteUnique(pool, name);
    case Delete => DeleteNamed(pool, name, name); DeleteUnique(pool, name);
  }

  /** The same for a successful action, which implies the user exists. */
  lemma ActEffect(action: Action, name: string, pool: Pool)
    requires UniqueNames(pool)
    requires Act(action, name, pool).Ok?
    ensures AccountNamed(pool, name).Some?
    ensures Act(action, name, pool).value.pool == Apply(action, pool, name)
    ensures UniqueNames(Act(action, name, pool).value.pool)
  {
    ActSucceeds(action, name, pool);
    ApplyEffect(action, name, pool);
  }

  /** No action touches any other user. */
  lemma ActKeepsOthers(action: Action, name: string, pool: Pool, other: string)
    requires UniqueNames(pool)
    requires Act(action, name, pool).Ok? && other != name
    ensures AccountNamed(Act(action, name, pool).value.pool, other) == AccountNamed(pool, other)
  {
    match action
    case Approve => RegroupNamed(pool, name, {Unapproved}, {Approved}, other);
    case Promote => RegroupNamed(pool, name, {}, {Admin}, other);
    case Close => DeleteNamed(pool, name, other);
    case Deny => DeleteNamed(pool, name, other);
    case Delete => DeleteNamed(pool, name, other);
  }

  /** The JSON body of a response: nothing, an `{"error": ...}` object, a
      message string, a list of emails, or the two user lists. */
  datatype Body =
    | NoBody
    | ErrorMessage(message: string)
    | Message(text: string)
    | Emails(emails: seq<string>)
    | UserLists(approved: seq<Listing>, unapproved: seq<Listing>)

  /** A status code and body; the CORS headers are constant and left out. */
  datatype Response = Response(status: int, body: Body)

  /** What a request produces: the response, the pool afterwards and the
      mails sent. */
  datatype Reply = Reply(response: Response, pool: Pool, mails: seq<Mail>)

  /** The parts of the API Gateway event the lambda reads. `authorized`
      stands for a truthy `requestContext.authorizer`. */
  datatype Request = Request(httpMethod: Option<string>, path: Option<string>, body: Option<string>, authorized: bool)

  /** A decoded JSON object, its values taken as strings. */
  type JsonObject = map<string, string>

  /** `json.loads` on a request body: the object, or None for a decode
      error. */
  type JsonParser = string -> Option<JsonObject>

  /** An error response that changes nothing. */
  function Refusal(pool: Pool, status: int, message: string): Reply {
    Reply(Response(status, ErrorMessage(message)), pool, [])
  }

  /** The fields a POST body must carry, in the order they are reported. */
  const RequiredFields: seq<string> := ["user", "user_email", "admin_email"]

  /** A field is missing when it is absent or empty. */
  predicate Lacks(data: JsonObject, field: string) {
    field !in data || data[field] == ""
  }

  /** The required fields that are missing, in the order of
      `RequiredFields`. */
  function MissingFields(data: JsonObject): (r: seq<string>)
    ensures forall f :: f in r <==> f in RequiredFields && Lacks(data, f)
    ensures forall i, j | 0 <= i < j < |r| :: exists p, q | 0 <= p < q < |RequiredFields| :: r[i] == RequiredFields[p] && r[j] == RequiredFields[q]
  {
    (if Lacks(data, "user") then ["user"] else [])
    + (if Lacks(data, "user_email") then ["user_email"] else [])
    + (if Lacks(data, "admin_email") then ["admin_email"] else [])
  }

  /** The path suffix that selects each action. */
  function Suffix(action: Action): string {
    match action
    case Approve => "/approve"
    case Promote => "/promote"
    case Close => "/close"
    case Deny => "/deny"
    case Delete => "/delete"
  }

  /** No path ends with two of the suffixes, so the order in which they are
      tried does not matter. */
  lemma SuffixesExclusive(path: string, a: Action, b: Action)
    requires EndsWith(path, Suffix(a)) && EndsWith(path, Suffix(b))
    ensures a == b
  {
    var n := |path|;
    assert path[n - 3..] == Suffix(a)[|Suffix(a)| - 3..] == Suffix(b)[|Suffix(b)| - 3..];
  }

  /** The POST route: the first of `/approve`, `/promote`, `/close`,
      `/deny`, `/delete` the path ends with. */
  function PostRoute(path: string): (r: Option<Action>)
    ensures forall a :: r == Some(a) <==> EndsWith(path, Suffix(a))
  {
    var route :=
      if EndsWith(path, "/approve") then Some(Approve)
      else if EndsWith(path, "/promote") then Some(Promote)
      else if EndsWith(path, "/close") then Some(Close)
      else if EndsWith(path, "/deny") then Some(Deny)
      else if EndsWith(path, "/delete") then Some(Delete)
      else None;
    assert forall a | EndsWith(path, Suffix(a)) :: route == Some(a) by {
      forall a | EndsWith(path, Suffix(a)) ensures route == Some(a) {
        if route.Some? {
          SuffixesExclusive(path, a, route.value);
        }
      }
    }
    route
  }

  /** The subject word of the administrators' mail. */
  function Subject(action: Action): string {
    match action
    case Approve => "APPROVED"
    case Promote => "PROMOTED"
    case Close => "CLOSED"
    case Deny => "DENIED"
    case Delete => "DELETED"
  }

  /** The administrators' mail text after the user's email; `actor` is the
      requesting administrator. */
  function AdminNote(action: Action, actor: string): string {
    match action
    case Approve => "has been approved by " + actor
    case Promote => "promoted to administrator by " + actor
    case Close => "account closed by user request"
    case Deny => "has been denied by " + actor
    case Delete => "has been deleted by " + actor
  }

  /** `_handle_post`: validate the body, read the administrators' emails,
      route by suffix, run the action, then mail the administrators. */
  function HandlePost(path: string, body: Option<string>, parse: JsonParser, pool: Pool): (r: Result<Reply>)
    ensures !Given(body) ==> r == Ok(Refusal(pool, HttpBadRequest, "Missing body"))
    ensures Given(body) && parse(body.value).None? ==> r == Ok(Refusal(pool, HttpBadRequest, "Invalid JSON"))
    ensures Given(body) && parse(body.value).Some? && |MissingFields(parse(body.value).value)| > 0 ==>
      r == Ok(Refusal(pool, HttpBadRequest, "Missing required fields: " + Join(MissingFields(parse(body.value).value), ", ")))
    ensures r.Ok? && r.value.response.status != HttpBadRequest ==>
      && Given(body) && parse(body.value).Some?
      && var data := parse(body.value).value;
      && |MissingFields(data)| == 0
      && CompileEmails(ListUsers(pool, Some(Admin))).Ok?
      && PostRoute(path).Some?
      && var out := Act(PostRoute(path).value, data["user"], pool);
      && out.Ok?
      && r.value.response == Response(HttpOk, Message(out.value.body))
      && r.value.pool == out.value.pool
      && r.value.mails == out.value.mails + [Mail(CompileEmails(ListUsers(pool, Some(Admin))).value,
           Subject(PostRoute(path).value) + ": " + data["user_email"],
           "User " + data["user_email"] + " " + AdminNote(PostRoute(path).value, data["admin_email"]))]
    ensures r.Err? && Given(body) && parse(body.value).Some? && |MissingFields(parse(body.value).value)| == 0 ==>
      if CompileEmails(ListUsers(pool, Some(Admin))).Err? then r.error == CompileEmails(ListUsers(pool, Some(Admin))).error
      else if PostRoute(path).None? then r.error == RuntimeError("Invalid POST path: " + path)
      else r.error == RuntimeError(NotFound(PostRoute(path).value))
    ensures && Given(body) && parse(body.value).Some? && |MissingFields(parse(body.value).value)| == 0
            && CompileEmails(ListUsers(pool, Some(Admin))).Ok? && PostRoute(path).Some? ==>
      (r.Ok? <==> Act(PostRoute(path).value, parse(body.value).value["user"], pool).Ok?)
  {
    if !Given(body) then Ok(Refusal(pool, HttpBadRequest, "Missing body"))
    else match parse(body.value)
      case None => Ok(Refusal(pool, HttpBadRequest, "Invalid JSON"))
      case Some(data) =>
        var missing := MissingFields(data);
        if |missing| > 0 then Ok(Refusal(pool, HttpBadRequest, "Missing required fields: " + Join(missing, ", ")))
        else
          var userName, userEmail, actor := data["user"], data["user_email"], data["admin_email"];
          var admins :- CompileEmails(ListUsers(pool, Some(Admin)));
          match PostRoute(path)
          case None => Err(RuntimeError("Invalid POST path: " + path))
          case Some(action) =>
            var out :- Act(action, userName, pool);
            var notice := Mail(admins, Subject(action) + ": " + userEmail, "User " + userEmail + " " + AdminNote(action, actor));
            Ok(Reply(Response(HttpOk, Message(out.body)), out.pool, out.mails + [notice]))
  }

  function EmailKey(l: Listing): string {
    l.email
  }

  /** `list_handler`: the `approved` users sorted by email (a stable sort,
      so records with the same email keep their order), and the
      `unapproved` users in the order Cognito lists them. */
  function ListHandler(pool: Pool): (r: Body)
    ensures r.UserLists?
    ensures multiset(r.approved) == multiset(CompileUsers(ListUsers(pool, Some(Approved))))
    ensures SortedBy(r.approved, EmailKey)
    ensures forall e :: WithKey(r.approved, EmailKey, e) == WithKey(CompileUsers(ListUsers(pool, Some(Approved))), EmailKey, e)
    ensures r.unapproved == CompileUsers(ListUsers(pool, Some(Unapproved)))
  {
    var approved := CompileUsers(ListUsers(pool, Some(Approved)));
    assert forall e :: WithKey(SortBy(approved, EmailKey), EmailKey, e) == WithKey(approved, EmailKey, e) by {
      forall e ensures WithKey(SortBy(approved, EmailKey), EmailKey, e) == WithKey(approved, EmailKey, e) {
        SortByStable(approved, EmailKey, e);
      }
    }
    UserLists(SortBy(approved, EmailKey), CompileUsers(ListUsers(pool, Some(Unapproved))))
  }

  /** `_handle_get`: `/list` and `/list/admin`; any other path is an error. */
  function HandleGet(path: string, pool: Pool): (r: Result<Body>)
    ensures path == "/list" ==> r == Ok(ListHandler(pool))
    ensures path == "/list/admin" ==>
      (r.Ok? <==> CompileEmails(ListUsers(pool, Some(Admin))).Ok?)
      && (r.Ok? ==> r.value == Emails(CompileEmails(ListUsers(pool, Some(Admin))).value))
    ensures path != "/list" && path != "/list/admin" ==> r == Err(RuntimeError("Invalid GET path: " + path))
  {
    if path == "/list" then Ok(ListHandler(pool))
    else if path == "/list/admin" then
      var admins :- CompileEmails(ListUsers(pool, Some(Admin)));
      Ok(Emails(admins))
    else Err(RuntimeError("Invalid GET path: " + path))
  }

  /** `handler`: method and path must be given; OPTIONS is answered before
      the authorizer is checked; then GET and POST are served and any other
      method is an error. */
  function Handler(req: Request, parse: JsonParser, pool: Pool): (r: Result<Reply>)
    ensures !Given(req.httpMethod) || !Given(req.path) ==> r == Ok(Refusal(pool, HttpBadRequest, "Missing httpMethod or path"))
    ensures Given(req.httpMethod) && Given(req.path) && req.httpMethod.value == "OPTIONS" ==>
      r == Ok(Reply(Response(HttpNoContent, NoBody), pool, []))
    ensures Given(req.httpMethod) && Given(req.path) && req.httpMethod.value != "OPTIONS" && !req.authorized ==>
      r == Ok(Refusal(pool, HttpUnauthorized, "Unauthorized: API Gateway must use Cognito authorizer"))
    ensures Given(req.httpMethod) && Given(req.path) && req.authorized && req.httpMethod.value == "GET" ==>
      (r.Ok? <==> HandleGet(req.path.value, pool).Ok?)
      && (r.Ok? ==> r.value == Reply(Response(HttpOk, HandleGet(req.path.value, pool).value), pool, []))
    ensures Given(req.httpMethod) && Given(req.path) && req.authorized && req.httpMethod.value == "POST" ==>
      r == HandlePost(req.path.value, req.body, parse, pool)
    ensures Given(req.httpMethod) && Given(req.path) && req.authorized && req.httpMethod.value !in {"GET", "POST", "OPTIONS"} ==>
      r == Err(RuntimeError("Invalid http method: " + req.httpMethod.value))
  {
    if !Given(req.httpMethod) || !Given(req.path) then Ok(Refusal(pool, HttpBadRequest, "Missing httpMethod or path"))
    else
      var verb, path := req.httpMethod.value, req.path.value;
      if verb == "OPTIONS" then Ok(Reply(Response(HttpNoContent, NoBody), pool, []))
      else if !req.authorized then Ok(Refusal(pool, HttpUnauthorized, "Unauthorized: API Gateway must use Cognito authorizer"))
      else if verb == "GET" then
        var body :- HandleGet(path, pool);
        Ok(Reply(Response(HttpOk, body), pool, []))
      else if verb == "POST" then HandlePost(path, req.body, parse, pool)
      else Err(RuntimeError("Invalid http method: " + verb))
  }

  /** Only an authorized POST to an action path can change the pool or send
      mail. */
  lemma OnlyAuthorizedPostsChange(req: Request, parse: JsonParser, pool: Pool)
    requires Handler(req, parse, pool).Ok?
    requires Handler(req, parse, pool).value.pool != pool || |Handler(req, parse, pool).value.mails| > 0
    ensures req.authorized && req.httpMethod == Some("POST") && Given(req.path) && PostRoute(req.path.value).Some?
  {
    if Given(req.httpMethod) && Given(req.path) && req.authorized && req.httpMethod.value == "POST" {
      var r := HandlePost(req.path.value, req.body, parse, pool);
      assert r.Ok? && r.value.response.status != HttpBadRequest;
    }
  }
}
