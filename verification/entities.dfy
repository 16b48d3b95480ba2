/** The rows of the finance store: users, categories, tags, transactions and
    the tag/transaction pivot, with the two enumerations. Each record type
    holds exactly the attributes its model lists as mass-assignable, so a
    write through create or update cannot reach any other column; the
    primary key lives in `Row`. */
module Entities {
  import opened Wrappers

  type Id = nat

  /** Money in integer cents: amounts are stored as `decimal:2`. */
  type Cents = int

  /** A calendar day. The store compares date columns chronologically, which
      for valid dates is the lexicographic order on (year, month, day). */
  datatype Date = Date(year: int, month: int, day: int)

  predicate DateLe(a: Date, b: Date) {
    a.year < b.year
    || (a.year == b.year && a.month < b.month)
    || (a.year == b.year && a.month == b.month && a.day <= b.day)
  }

  predicate IsLeapYear(y: int) {
    (y % 4 == 0 && y % 100 != 0) || y % 400 == 0
  }

  /** The `t` of `date('Y-m-t')`: the number of days in the month. */
  function DaysInMonth(year: int, month: int): (n: int)
    requires 1 <= month <= 12
    ensures 28 <= n <= 31
    ensures month == 2 ==> (n == 29 <==> IsLeapYear(year))
  {
    if month == 2 then (if IsLeapYear(year) then 29 else 28)
    else if month == 4 || month == 6 || month == 9 || month == 11 then 30
    else 31
  }

  predicate ValidDate(d: Date) {
    1 <= d.month <= 12 && 1 <= d.day <= DaysInMonth(d.year, d.month)
  }

  /** `RoleEnum`: admin, manager or user. */
  datatype Role = AdminRole | ManagerRole | UserRole

  /** `CategoryTypeEnum`: income, expense or investment. */
  datatype CategoryType = Income | Expense | Investment

  /** The string value a role is stored and submitted as. */
  function RoleValue(r: Role): string {
    match r
    case AdminRole => "admin"
    case ManagerRole => "manager"
    case UserRole => "user"
  }

  /** The enum cast `RoleEnum::tryFrom`: the role whose value is `s`, if any. */
  function RoleFromValue(s: string): (r: Option<Role>)
    ensures r.Some? <==> s in {"admin", "manager", "user"}
    ensures r.Some? ==> RoleValue(r.value) == s
  {
    if s == "admin" then Some(AdminRole)
    else if s == "manager" then Some(ManagerRole)
    else if s == "user" then Some(UserRole)
    else None
  }

  /** Parsing the stored value of a role gives the role back. */
  lemma RoleValueRoundTrip(r: Role)
    ensures RoleFromValue(RoleValue(r)) == Some(r)
  {
  }

  /** A user row. The password column holds a hash; it is empty (null) only
      when a record was created without one. */
  datatype User = User(
    name: string,
    email: string,
    password: Option<string>,
    role: Role,
    managerId: Option<Id>,
    isActive: bool)

  predicate IsAdmin(u: User) { u.role == AdminRole }
  predicate IsManager(u: User) { u.role == ManagerRole }

  /** A category row; `userId` is null for system categories. */
  datatype Category = Category(
    name: string,
    categoryType: CategoryType,
    color: Option<string>,
    isSystem: bool,
    userId: Option<Id>)

  datatype Tag = Tag(name: string, userId: Id)

  datatype Transaction = Transaction(
    amount: Cents,
    date: Date,
    description: Option<string>,
    paymentMethod: string,
    location: Option<string>,
    isRecurring: bool,
    recurrencePattern: Option<string>,
    userId: Id,
    categoryId: Id)

  /** A stored record: its primary key and its attributes. */
  datatype Row<F> = Row(id: Id, data: F)

  /** A row of the `tag_transaction` pivot. The table has no uniqueness
      constraint, so the same pair may occur several times. */
  datatype Link = Link(tagId: Id, transactionId: Id)

  /** A record together with a `withCount` aggregate. */
  datatype Counted<F> = Counted(row: Row<F>, count: nat)
}
