/** `StoreUserRequest`: the role rule and the after-hook that checks the
    admin and manager rules when a user is created. */
module StoreUserRequest {
  import opened Wrappers
  import opened Entities
  import opened Validation

  /** The submitted `role` and `manager_id`, as raw input: `None` when
      absent or null. */
  datatype StoreInput = StoreInput(role: Option<string>, managerId: Option<Id>)

  const ManagerCreatesNonUser: FieldError :=
    FieldError("role", "Managers can only create users with \"user\" role.")

  /** The `role` rule: required, and a value of the role enumeration. */
  function RoleRule(role: Option<string>): (errors: seq<FieldError>)
    ensures errors == [] <==> role.Some? && RoleFromValue(role.value).Some?
    ensures |errors| <= 1 && forall i :: 0 <= i < |errors| ==> errors[i].field == "role"
  {
    if role.None? then [FieldError("role", "The role field is required.")]
    else if RoleFromValue(role.value).None? then [FieldError("role", "The selected role is invalid.")]
    else []
  }

  /** The after-hook, run for the acting user `actor`: an admin may not be
      given a manager, and a manager may only create plain users. */
  function AfterErrors(actor: User, input: StoreInput): (errors: seq<FieldError>)
    ensures AdminWithManager in errors <==> input.role == Some("admin") && input.managerId.Some?
    ensures ManagerCreatesNonUser in errors <==> IsManager(actor) && input.role != Some("user")
    ensures forall i :: 0 <= i < |errors| ==> errors[i] == AdminWithManager || errors[i] == ManagerCreatesNonUser
  {
    (if input.role == Some("admin") && input.managerId.Some? then [AdminWithManager] else [])
    + (if IsManager(actor) && input.role != Some("user") then [ManagerCreatesNonUser] else [])
  }

  /** Both checks run: an admin with a manager, submitted by a manager,
      reports the manager error and then the role error. */
  lemma BothErrorsReported(actor: User, managerId: Id)
    requires IsManager(actor)
    ensures AfterErrors(actor, StoreInput(Some("admin"), Some(managerId))) == [AdminWithManager, ManagerCreatesNonUser]
  {
  }

  /** An actor who is not a manager may create users of every role. */
  lemma NonManagerUnrestricted(actor: User, role: Role, managerId: Option<Id>)
    requires !IsManager(actor)
    ensures ManagerCreatesNonUser !in AfterErrors(actor, StoreInput(Some(RoleValue(role)), managerId))
  {
  }
}
