/** The permission table and the check that guards every service call
    (Inner_system/app/auth.py).

    The decorator is a check followed by the call: `Check` is the check, and
    `Guarded` is the decorated call's result, the wrapped operation's result
    when the check passes and the PermissionError otherwise. A caller with
    no role is modelled by `None`. */
module Auth {
  import opened Errors

  const HR := "HR"
  const FM := "FinancialManager"
  const PM := "ProductionManager"

  /** Each role's actions. */
  const Permissions: map<string, set<string>> := map[
    HR := {"approve_hr_request", "reject_hr_request", "assign_staff"},
    FM := {"approve_budget", "reject_budget", "counter_offer"},
    PM := {"create_hr_request", "create_budget_request"}
  ]

  /** The role's actions; a role missing from the table has none. */
  function Granted(role: string): set<string> {
    if role in Permissions then Permissions[role] else {}
  }

  /** The role that owns each action, read action by action: an independent
      statement of the table. */
  function Owner(action: string): Option<string> {
    if action in ["approve_hr_request", "reject_hr_request", "assign_staff"] then Some(HR)
    else if action in ["approve_budget", "reject_budget", "counter_offer"] then Some(FM)
    else if action in ["create_hr_request", "create_budget_request"] then Some(PM)
    else None
  }

  /** The message of the PermissionError for an action the role lacks. */
  function DeniedMessage(role: string, action: string): string {
    "Role '" + role + "' is not allowed to perform '" + action + "'"
  }

  /** `require_permission(action)`'s check: no role, then an action the
      role is not granted, each raise PermissionError. */
  function Check(role: Option<string>, action: string): (r: Outcome<Error>)
    ensures r == Pass <==> role.Some? && action in Granted(role.value)
    ensures role.None? ==> r == Fail(PermissionError("No role assigned"))
    ensures role.Some? && r.Fail? ==>
      r == Fail(PermissionError(DeniedMessage(role.value, action)))
  {
    if role.None? then Fail(PermissionError("No role assigned"))
    else if action !in Granted(role.value) then
      Fail(PermissionError(DeniedMessage(role.value, action)))
    else Pass
  }

  /** A decorated call: the wrapped operation's result, unchanged, when the
      check passes; the check's PermissionError otherwise. */
  function Guarded<T>(role: Option<string>, action: string, result: T): (r: Result<T, Error>)
    ensures r.Ok? <==> Check(role, action) == Pass
    ensures r.Ok? ==> r.value == result
    ensures r.Err? ==> r.error.PermissionError?
    ensures role.Some? && r.Err? ==> r.error == PermissionError(DeniedMessage(role.value, action))
  {
    match Check(role, action)
    case Pass => Ok(result)
    case Fail(e) => Err(e)
  }

  /** The table grants each role exactly its three (or two) actions. */
  lemma TableContents()
    ensures Granted(HR) == {"approve_hr_request", "reject_hr_request", "assign_staff"}
    ensures Granted(FM) == {"approve_budget", "reject_budget", "counter_offer"}
    ensures Granted(PM) == {"create_hr_request", "create_budget_request"}
  {
  }

  /** A role is allowed an action exactly when it is the action's owner, so
      the action sets are pairwise disjoint and every guarded action belongs
      to exactly one role. */
  lemma AllowedIffOwner(role: string, action: string)
    ensures Check(Some(role), action) == Pass <==> Owner(action) == Some(role)
  {
    if role == HR {
      assert Granted(role) == {"approve_hr_request", "reject_hr_request", "assign_staff"};
    } else if role == FM {
      assert Granted(role) == {"approve_budget", "reject_budget", "counter_offer"};
    } else if role == PM {
      assert Granted(role) == {"create_hr_request", "create_budget_request"};
    } else {
      assert role !in Permissions;
    }
  }

  /** No action is granted to two roles. */
  lemma UniqueOwner(r1: string, r2: string, action: string)
    requires Check(Some(r1), action) == Pass && Check(Some(r2), action) == Pass
    ensures r1 == r2
  {
    AllowedIffOwner(r1, action);
    AllowedIffOwner(r2, action);
  }

  /** A role missing from the table is refused every action. */
  lemma UnknownRoleDenied(role: string, action: string)
    requires role !in {HR, FM, PM}
    ensures Check(Some(role), action).Fail?
  {
    assert role !in Permissions;
  }
}
