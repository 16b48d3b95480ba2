/** The user finders: by role, by manager, active users, and lookup by
    email. */
module UserRepository {
  import opened Wrappers
  import opened Seqs
  import opened Entities
  import opened BaseRepository

  function FindUsersByRole(rows: seq<Row<User>>, role: Role): (r: seq<Row<User>>)
    ensures Selects(r, rows, (u: Row<User>) => u.data.role == role)
  {
    FilterMembers(rows, (u: Row<User>) => u.data.role == role);
    Filter(rows, (u: Row<User>) => u.data.role == role)
  }

  function FindUsersByManager(rows: seq<Row<User>>, managerId: Id): (r: seq<Row<User>>)
    ensures Selects(r, rows, (u: Row<User>) => u.data.managerId == Some(managerId))
  {
    FilterMembers(rows, (u: Row<User>) => u.data.managerId == Some(managerId));
    Filter(rows, (u: Row<User>) => u.data.managerId == Some(managerId))
  }

  function FindActiveUsers(rows: seq<Row<User>>): (r: seq<Row<User>>)
    ensures Selects(r, rows, (u: Row<User>) => u.data.isActive)
  {
    FilterMembers(rows, (u: Row<User>) => u.data.isActive);
    Filter(rows, (u: Row<User>) => u.data.isActive)
  }

  /** `where('email', $email)->first()`: the first user with exactly that
      email, or null. */
  function FindByEmail(rows: seq<Row<User>>, email: string): (r: Option<Row<User>>)
    ensures r.None? <==> forall i :: 0 <= i < |rows| ==> rows[i].data.email != email
    ensures r.Some? ==> exists k :: 0 <= k < |rows| && rows[k] == r.value && r.value.data.email == email
                                    && forall j :: 0 <= j < k ==> rows[j].data.email != email
    decreases |rows|
  {
    if |rows| == 0 then None
    else if rows[0].data.email == email then Some(rows[0])
    else
      var r := FindByEmail(rows[1..], email);
      assert forall i :: 1 <= i < |rows| ==> rows[i] == rows[1..][i - 1];
      if r.Some? then
        var k :| 0 <= k < |rows[1..]| && rows[1..][k] == r.value && r.value.data.email == email
                 && forall j :: 0 <= j < k ==> rows[1..][j].data.email != email;
        assert rows[k + 1] == r.value;
        r
      else r
  }
}
