/** The Cognito post-confirmation trigger: a newly confirmed user is put in
    the `unapproved` group and the administrators are told by mail; any
    other trigger passes through untouched. */
module PostConfirmation {
  import opened Results
  import opened CognitoPool

  const ConfirmSignUp := "PostConfirmation_ConfirmSignUp"

  /** The parts of the trigger event the handler reads
      (`request.userAttributes.email` flattened to `email`). */
  datatype TriggerEvent = TriggerEvent(
    triggerSource: Option<string>,
    userName: Option<string>,
    userPoolId: Option<string>,
    email: Option<string>)

  /** The handler's result: the event it returns, the pool afterwards and
      the mails sent. */
  datatype Confirmed = Confirmed(event: TriggerEvent, pool: Pool, mails: seq<Mail>)

  /** `inform_administrators`: one mail to every administrator email. */
  function InformAdministrators(email: string, pool: Pool): (r: Result<Mail>)
    ensures r.Ok? <==> CompileEmails(ListUsers(pool, Some(Admin))).Ok?
    ensures r.Ok? ==> r.value.to == CompileEmails(ListUsers(pool, Some(Admin))).value && |r.value.to| > 0
    ensures r.Err? ==> r.error == RuntimeError("Error: No email addresses found")
  {
    var admins :- CompileEmails(ListUsers(pool, Some(Admin)));
    Ok(Mail(admins, "New user: " + email, "New user added to Suigetsukan Curriculum: " + email))
  }

  /** The confirmation proper: add the user to `unapproved`, then tell the
      administrators. */
  function Confirm(event: TriggerEvent, name: string, email: string, pool: Pool): (r: Result<Confirmed>)
    ensures r.Ok? ==>
      && r.value.event == event && r.value.pool == Regroup(pool, name, {}, {Unapproved})
      && |r.value.mails| == 1 && CompileEmails(ListUsers(r.value.pool, Some(Admin))) == Ok(r.value.mails[0].to)
    ensures r.Err? ==> r.error == RuntimeError("Error: No email addresses found")
  {
    var added := Regroup(pool, name, {}, {Unapproved});
    var notice :- InformAdministrators(email, added);
    Ok(Confirmed(event, added, [notice]))
  }

  /** `handler`. */
  function Handler(event: TriggerEvent, pool: Pool): (r: Result<Confirmed>)
    ensures !Given(event.triggerSource) ==> r == Err(ValueError("Invalid Cognito event: missing triggerSource"))
    ensures Given(event.triggerSource) && event.triggerSource.value != ConfirmSignUp ==> r == Ok(Confirmed(event, pool, []))
    ensures event.triggerSource == Some(ConfirmSignUp) && !(Given(event.userName) && Given(event.userPoolId) && Given(event.email)) ==>
      r == Err(ValueError("Invalid Cognito event: missing userName, userPoolId, or request.userAttributes.email"))
    ensures event.triggerSource == Some(ConfirmSignUp) && Given(event.userName) && Given(event.userPoolId) && Given(event.email) ==>
      r == Confirm(event, event.userName.value, event.email.value, pool)
  {
    if !Given(event.triggerSource) then Err(ValueError("Invalid Cognito event: missing triggerSource"))
    else if event.triggerSource.value == ConfirmSignUp then
      if !(Given(event.userName) && Given(event.userPoolId) && Given(event.email)) then
        Err(ValueError("Invalid Cognito event: missing userName, userPoolId, or request.userAttributes.email"))
      else Confirm(event, event.userName.value, event.email.value, pool)
    else Ok(Confirmed(event, pool, []))
  }

  /** Whatever the trigger, a handler that returns gives back the event it
      was given. */
  lemma HandlerReturnsEvent(event: TriggerEvent, pool: Pool)
    requires Handler(event, pool).Ok?
    ensures Handler(event, pool).value.event == event
  {
    if event.triggerSource == Some(ConfirmSignUp) {
      var c := Confirm(event, event.userName.value, event.email.value, pool);
      assert c.Ok? && c.value.event == event;
    }
  }

  /** A confirmed user ends up in `unapproved`, keeps its other groups, and
      no other account changes. */
  lemma ConfirmedIsUnapproved(event: TriggerEvent, name: string, email: string, pool: Pool, other: string)
    requires UniqueNames(pool)
    requires Confirm(event, name, email, pool).Ok?
    ensures var after := Confirm(event, name, email, pool).value.pool;
      && UniqueNames(after)
      && (AccountNamed(pool, name).Some? ==>
            AccountNamed(after, name) == Some(Account(AccountNamed(pool, name).value.user, AccountNamed(pool, name).value.groups + {Unapproved})))
      && (other != name ==> AccountNamed(after, other) == AccountNamed(pool, other))
  {
    RegroupNamed(pool, name, {}, {Unapproved}, other);
    if AccountNamed(pool, name).Some? {
      var g := AccountNamed(pool, name).value.groups;
      assert g - {} + {Unapproved} == g + {Unapproved};
    }
  }

  /** Adding a user to `unapproved` does not change who the administrators
      are, so the notice goes to the administrators as they were. */
  lemma NoticeGoesToAdmins(event: TriggerEvent, name: string, email: string, pool: Pool)
    requires Confirm(event, name, email, pool).Ok?
    ensures CompileEmails(ListUsers(pool, Some(Admin))) == Ok(Confirm(event, name, email, pool).value.mails[0].to)
  {
    var after := Regroup(pool, name, {}, {Unapproved});
    assert forall i | 0 <= i < |pool| :: InScope(after[i], Some(Admin)) == InScope(pool[i], Some(Admin));
    SameAdmins(pool, after);
  }

  /** Two pools with the same users, each an administrator in one exactly
      when in the other, list the same administrators. */
  lemma {:induction false} SameAdmins(p: Pool, q: Pool)
    requires |p| == |q|
    requires forall i | 0 <= i < |p| :: p[i].user == q[i].user && InScope(p[i], Some(Admin)) == InScope(q[i], Some(Admin))
    ensures ListUsers(p, Some(Admin)) == ListUsers(q, Some(Admin))
    decreases |p|
  {
    if |p| > 0 {
      SameAdmins(p[1..], q[1..]);
    }
  }
}
