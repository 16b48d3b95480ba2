/** `UpdateUserRequest`: the after-hook that checks the management
    hierarchy when a user's manager is changed. */
module UpdateUserRequest {
  import opened Wrappers
  import opened Entities
  import opened BaseRepository
  import opened Validation

  const OwnManager: FieldError := FieldError("manager_id", "A user cannot be their own manager.")
  const ManagerOfManager: FieldError := FieldError("manager_id", "Managers cannot be managed by other managers.")

  /** The proposed manager is a stored user with the manager role. */
  predicate ProposesManager(users: seq<Row<User>>, managerId: Id) {
    Find(users, managerId).Some? && IsManager(Find(users, managerId).value.data)
  }

  /** The after-hook for updating `target` with the submitted `manager_id`
      (`None` when absent or null), looking the proposed manager up in
      `users`. */
  function AfterErrors(users: seq<Row<User>>, target: Row<User>, managerId: Option<Id>): (errors: seq<FieldError>)
    ensures OwnManager in errors <==> managerId == Some(target.id)
    ensures AdminWithManager in errors <==> IsAdmin(target.data) && managerId.Some?
    ensures ManagerOfManager in errors <==>
              managerId.Some? && IsManager(target.data) && ProposesManager(users, managerId.value)
    ensures forall i :: 0 <= i < |errors| ==>
              errors[i] in {OwnManager, AdminWithManager, ManagerOfManager}
    ensures forall i :: 0 <= i < |errors| ==> errors[i].field == "manager_id"
  {
    (if managerId == Some(target.id) then [OwnManager] else [])
    + (if IsAdmin(target.data) && managerId.Some? then [AdminWithManager] else [])
    + (if managerId.Some? && ProposesManager(users, managerId.value) && IsManager(target.data)
       then [ManagerOfManager] else [])
  }

  /** Leaving the manager out, or clearing it, raises no hierarchy error. */
  lemma NoManagerNoErrors(users: seq<Row<User>>, target: Row<User>)
    ensures AfterErrors(users, target, None) == []
  {
  }

  /** A manager may be placed under a user who is not a manager, such as an
      admin. */
  lemma ManagerUnderAdmin(users: seq<Row<User>>, target: Row<User>, adminId: Id)
    requires IsManager(target.data) && adminId != target.id
    requires Find(users, adminId).Some? && IsAdmin(Find(users, adminId).value.data)
    ensures AfterErrors(users, target, Some(adminId)) == []
  {
  }
}
