/** The category finders: visibility, type, system/custom, counts of
    transactions, and a category loaded with its transactions. */
module CategoryRepository {
  import opened Wrappers
  import opened Seqs
  import opened Entities
  import opened BaseRepository
  import opened CategoryModel

  /** `findCategoriesForUser`: the user's own categories and every system
      category. */
  function FindCategoriesForUser(rows: seq<Row<Category>>, userId: Id): (r: seq<Row<Category>>)
    ensures Selects(r, rows, (c: Row<Category>) => c.data.userId == Some(userId) || c.data.isSystem)
  {
    FilterMembers(rows, (c: Row<Category>) => ForUser(c.data, userId));
    Filter(rows, (c: Row<Category>) => ForUser(c.data, userId))
  }

  /** `findCategoriesByType`: the type filter, with `forUser` when a user is
      given. */
  function FindCategoriesByType(rows: seq<Row<Category>>, categoryType: CategoryType, userId: Option<Id>)
    : (r: seq<Row<Category>>)
    ensures Selects(r, rows, (c: Row<Category>) =>
              c.data.categoryType == categoryType
              && (userId.None? || c.data.userId == userId || c.data.isSystem))
  {
    var query := Filter(rows, (c: Row<Category>) => OfType(c.data, categoryType));
    FilterMembers(rows, (c: Row<Category>) => OfType(c.data, categoryType));
    if userId.Some? then
      FilterMembers(query, (c: Row<Category>) => ForUser(c.data, userId.value));
      Filter(query, (c: Row<Category>) => ForUser(c.data, userId.value))
    else query
  }

  /** `findSystemCategories`: takes no user. */
  function FindSystemCategories(rows: seq<Row<Category>>): (r: seq<Row<Category>>)
    ensures Selects(r, rows, (c: Row<Category>) => c.data.isSystem)
  {
    FilterMembers(rows, (c: Row<Category>) => IsSystem(c.data));
    Filter(rows, (c: Row<Category>) => IsSystem(c.data))
  }

  /** `findCustomCategories`: non-system categories, restricted with a plain
      `user_id` condition (not `forUser`, so system categories stay out). */
  function FindCustomCategories(rows: seq<Row<Category>>, userId: Option<Id>): (r: seq<Row<Category>>)
    ensures Selects(r, rows, (c: Row<Category>) =>
              !c.data.isSystem && (userId.None? || c.data.userId == userId))
  {
    var query := Filter(rows, (c: Row<Category>) => IsCustom(c.data));
    FilterMembers(rows, (c: Row<Category>) => IsCustom(c.data));
    if userId.Some? then
      FilterMembers(query, (c: Row<Category>) => c.data.userId == Some(userId.value));
      Filter(query, (c: Row<Category>) => c.data.userId == Some(userId.value))
    else query
  }

  /** Without a user, the system and custom finders together return every
      category exactly once. */
  lemma SystemAndCustomCoverAll(rows: seq<Row<Category>>)
    ensures |FindSystemCategories(rows)| + |FindCustomCategories(rows, None)| == |rows|
    ensures multiset(FindSystemCategories(rows)) + multiset(FindCustomCategories(rows, None)) == multiset(rows)
  {
    SystemCustomPartition(rows);
  }

  /** `findCategoriesWithTransactionCount`: each visible category with the
      number of transactions filed under it. */
  function FindCategoriesWithTransactionCount(
    rows: seq<Row<Category>>, transactions: seq<Row<Transaction>>, userId: Id)
    : (r: seq<Counted<Category>>)
    ensures |r| == |FindCategoriesForUser(rows, userId)|
    ensures forall i :: 0 <= i < |r| ==>
              r[i].row in rows && ForUser(r[i].row.data, userId)
              && r[i].count == |Filter(transactions, (t: Row<Transaction>) => t.data.categoryId == r[i].row.id)|
    ensures forall i :: 0 <= i < |rows| && ForUser(rows[i].data, userId) ==>
              exists j :: 0 <= j < |r| && r[j].row == rows[i]
  {
    var visible := FindCategoriesForUser(rows, userId);
    var r := seq(|visible|, i requires 0 <= i < |visible| =>
      Counted(visible[i], |TransactionsOf(transactions, visible[i].id)|));
    assert forall j :: 0 <= j < |visible| ==> r[j].row == visible[j];
    r
  }

  datatype CategoryWithTransactions = CategoryWithTransactions(
    category: Row<Category>, transactions: seq<Row<Transaction>>)

  /** `findCategoryWithTransactions`: null for a missing id, otherwise the
      category with all of its transactions, whoever owns them. */
  function FindCategoryWithTransactions(
    rows: seq<Row<Category>>, transactions: seq<Row<Transaction>>, categoryId: Id)
    : (r: Option<CategoryWithTransactions>)
    ensures r.None? <==> !HasId(rows, categoryId)
    ensures r.Some? ==> r.value.category in rows && r.value.category.id == categoryId
    ensures r.Some? ==> Selects(r.value.transactions, transactions,
                                (t: Row<Transaction>) => t.data.categoryId == categoryId)
  {
    FilterMembers(transactions, (t: Row<Transaction>) => t.data.categoryId == categoryId);
    match Find(rows, categoryId)
    case None => None
    case Some(c) => Some(CategoryWithTransactions(c, TransactionsOf(transactions, categoryId)))
  }
}
