/** The query scopes of the category model and its `transactions()`
    relation. */
module CategoryModel {
  import opened Wrappers
  import opened Seqs
  import opened Entities

  /** `scopeForUser`: the user's own categories or any system category. */
  predicate ForUser(c: Category, userId: Id) {
    c.userId == Some(userId) || c.isSystem
  }

  /** `scopeOfType`. */
  predicate OfType(c: Category, categoryType: CategoryType) {
    c.categoryType == categoryType
  }

  /** `scopeSystem`: `is_system = true`. */
  predicate IsSystem(c: Category) {
    c.isSystem
  }

  /** `scopeCustom`: `is_system = false`. */
  predicate IsCustom(c: Category) {
    !c.isSystem
  }

  /** `transactions()`: the transactions whose `category_id` is the category. */
  function TransactionsOf(transactions: seq<Row<Transaction>>, categoryId: Id): seq<Row<Transaction>> {
    Filter(transactions, (t: Row<Transaction>) => t.data.categoryId == categoryId)
  }

  /** The system and custom scopes split any table of categories: every row
      satisfies exactly one of them. */
  lemma SystemCustomPartition(rows: seq<Row<Category>>)
    ensures |Filter(rows, (c: Row<Category>) => IsSystem(c.data))|
          + |Filter(rows, (c: Row<Category>) => IsCustom(c.data))| == |rows|
    ensures multiset(Filter(rows, (c: Row<Category>) => IsSystem(c.data)))
          + multiset(Filter(rows, (c: Row<Category>) => IsCustom(c.data))) == multiset(rows)
  {
    FilterPartition(rows, (c: Row<Category>) => IsSystem(c.data), (c: Row<Category>) => IsCustom(c.data));
  }
}
