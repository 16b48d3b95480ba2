/** `UserService`: registering a user with defaults filled in, switching a
    user's active flag and changing a password. The hash function is a
    parameter. */
module UserService {
  import opened Wrappers
  import opened Entities
  import opened BaseRepository

  /** The `$userData` array given to `registerUser`: the mass-assignable
      keys, with `None` for a key that is absent or null. */
  datatype UserInput = UserInput(
    name: string,
    email: string,
    password: Option<string>,
    role: Option<Role>,
    managerId: Option<Id>,
    isActive: Option<bool>)

  /** The record `registerUser` stores, built from the input the way the
      service rewrites it: the password hashed when present, a given
      manager id taking precedence over the input's, and `is_active` and
      `role` defaulting to true and `user` when absent or null. */
  method PrepareUserData(input: UserInput, managerId: Option<Id>, hash: string -> string)
    returns (user: User)
    ensures user.name == input.name && user.email == input.email
    ensures input.password.None? ==> user.password.None?
    ensures input.password.Some? ==> user.password == Some(hash(input.password.value))
    ensures managerId.Some? ==> user.managerId == managerId
    ensures managerId.None? ==> user.managerId == input.managerId
    ensures input.isActive.None? ==> user.isActive
    ensures input.isActive.Some? ==> user.isActive == input.isActive.value
    ensures input.role.None? ==> user.role == UserRole
    ensures input.role.Some? ==> user.role == input.role.value
  {
    var data := input;
    if data.password.Some? {
      data := data.(password := Some(hash(data.password.value)));
    }
    if managerId.Some? {
      data := data.(managerId := managerId);
    }
    data := data.(isActive := Some(data.isActive.GetOr(true)));
    data := data.(role := Some(data.role.GetOr(UserRole)));
    user := User(data.name, data.email, data.password, data.role.value, data.managerId, data.isActive.value);
  }

  /** `registerUser`: the prepared record is inserted as a new row. */
  method RegisterUser(users: Repository<User>, input: UserInput, managerId: Option<Id>, hash: string -> string)
    returns (row: Row<User>)
    requires users.Valid()
    modifies users
    ensures users.Valid()
    ensures users.rows == old(users.rows) + [row] && users.nextId == old(users.nextId) + 1
    ensures row.id == old(users.nextId) && !HasId(old(users.rows), row.id)
    ensures row.data.name == input.name && row.data.email == input.email
    ensures input.password.Some? ==> row.data.password == Some(hash(input.password.value))
    ensures input.password.None? ==> row.data.password.None?
    ensures row.data.managerId == if managerId.Some? then managerId else input.managerId
    ensures row.data.isActive == input.isActive.GetOr(true)
    ensures row.data.role == input.role.GetOr(UserRole)
  {
    var user := PrepareUserData(input, managerId, hash);
    row := users.Create(user);
  }

  /** The patch `['is_active' => $isActive]`. */
  function WithStatus(isActive: bool): User -> User {
    (u: User) => u.(isActive := isActive)
  }

  /** The patch `['password' => $hashedPassword]`. */
  function WithPassword(hashed: string): User -> User {
    (u: User) => u.(password := Some(hashed))
  }

  /** `updateUserStatus`: only the user's `is_active` changes. */
  method UpdateUserStatus(users: Repository<User>, userId: Id, isActive: bool) returns (ok: bool)
    requires users.Valid() && HasId(users.rows, userId)
    modifies users
    ensures users.Valid() && ok
    ensures users.rows == Patched(old(users.rows), userId, WithStatus(isActive))
    ensures users.nextId == old(users.nextId)
    ensures Find(users.rows, userId)
            == Some(Row(userId, Find(old(users.rows), userId).value.data.(isActive := isActive)))
    ensures forall k :: k != userId ==> Find(users.rows, k) == Find(old(users.rows), k)
  {
    ok := users.Update(userId, WithStatus(isActive));
  }

  /** `changePassword`: only the user's password changes, to the hash of
      the new one. */
  method ChangePassword(users: Repository<User>, userId: Id, newPassword: string, hash: string -> string)
    returns (ok: bool)
    requires users.Valid() && HasId(users.rows, userId)
    modifies users
    ensures users.Valid() && ok
    ensures users.rows == Patched(old(users.rows), userId, WithPassword(hash(newPassword)))
    ensures users.nextId == old(users.nextId)
    ensures Find(users.rows, userId)
            == Some(Row(userId, Find(old(users.rows), userId).value.data.(password := Some(hash(newPassword)))))
    ensures forall k :: k != userId ==> Find(users.rows, k) == Find(old(users.rows), k)
  {
    var hashed := hash(newPassword);
    ok := users.Update(userId, WithPassword(hashed));
  }

  /** Deactivating a user and activating them again gives back the table
      as it was. */
  lemma StatusToggleRestores(rows: seq<Row<User>>, userId: Id)
    requires IdsIncreasing(rows) && HasId(rows, userId)
    requires Find(rows, userId).value.data.isActive
    ensures Patched(Patched(rows, userId, WithStatus(false)), userId, WithStatus(true)) == rows
  {
    var back := Patched(Patched(rows, userId, WithStatus(false)), userId, WithStatus(true));
    forall i | 0 <= i < |rows| ensures back[i] == rows[i] {
      if rows[i].id == userId {
        assert rows[i] == Find(rows, userId).value;
      }
    }
  }
}
