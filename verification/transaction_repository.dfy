/** The transaction finders, each a chain of scopes with an optional user
    filter, and the repository's own tag attach/detach, which report a
    missing transaction by returning false. */
module TransactionRepository {
  import opened Wrappers
  import opened Seqs
  import opened Entities
  import opened BaseRepository
  import opened TransactionModel

  /** A null user id adds no condition; otherwise the `forUser` scope. */
  predicate VisibleTo(t: Transaction, userId: Option<Id>) {
    userId.None? || ForUser(t, userId.value)
  }

  /** `if ($userId !== null) { $query->forUser($userId); }` */
  function ScopeToUser(query: seq<Row<Transaction>>, userId: Option<Id>): seq<Row<Transaction>> {
    if userId.Some? then Filter(query, (t: Row<Transaction>) => ForUser(t.data, userId.value))
    else query
  }

  /** The user scope keeps exactly the visible rows of the query. */
  lemma ScopeToUserSelects(query: seq<Row<Transaction>>, userId: Option<Id>)
    ensures Selects(ScopeToUser(query, userId), query, (t: Row<Transaction>) => VisibleTo(t.data, userId))
  {
    if userId.Some? {
      FilterMembers(query, (t: Row<Transaction>) => ForUser(t.data, userId.value));
    }
  }

  function FindTransactionsByUser(rows: seq<Row<Transaction>>, userId: Id): (r: seq<Row<Transaction>>)
    ensures Selects(r, rows, (t: Row<Transaction>) => t.data.userId == userId)
  {
    FilterMembers(rows, (t: Row<Transaction>) => ForUser(t.data, userId));
    Filter(rows, (t: Row<Transaction>) => ForUser(t.data, userId))
  }

  function FindTransactionsBetweenDates(rows: seq<Row<Transaction>>, startDate: Date, endDate: Date, userId: Option<Id>)
    : (r: seq<Row<Transaction>>)
    ensures Selects(r, rows, (t: Row<Transaction>) =>
              DateLe(startDate, t.data.date) && DateLe(t.data.date, endDate) && VisibleTo(t.data, userId))
  {
    var query := Filter(rows, (t: Row<Transaction>) => BetweenDates(t.data, startDate, endDate));
    FilterMembers(rows, (t: Row<Transaction>) => BetweenDates(t.data, startDate, endDate));
    ScopeToUserSelects(query, userId);
    ScopeToUser(query, userId)
  }

  /** Chaining `forUser` after `betweenDates` filters by the conjunction, in
      table order; a null user id leaves the date filter alone. */
  lemma BetweenDatesIsConjunction(rows: seq<Row<Transaction>>, startDate: Date, endDate: Date, userId: Option<Id>)
    ensures FindTransactionsBetweenDates(rows, startDate, endDate, userId) ==
            Filter(rows, (t: Row<Transaction>) => BetweenDates(t.data, startDate, endDate) && VisibleTo(t.data, userId))
  {
    var dates := (t: Row<Transaction>) => BetweenDates(t.data, startDate, endDate);
    var both := (t: Row<Transaction>) => BetweenDates(t.data, startDate, endDate) && VisibleTo(t.data, userId);
    if userId.Some? {
      FilterFilter(rows, dates, (t: Row<Transaction>) => ForUser(t.data, userId.value), both);
    } else {
      FilterCongruent(rows, dates, both);
    }
  }

  function FindTransactionsByCategoryType(
    rows: seq<Row<Transaction>>, categories: seq<Row<Category>>, categoryType: CategoryType, userId: Option<Id>)
    : (r: seq<Row<Transaction>>)
    ensures Selects(r, rows, (t: Row<Transaction>) =>
              CategoryTypeOf(categories, t.data) == Some(categoryType) && VisibleTo(t.data, userId))
  {
    var query := Filter(rows, (t: Row<Transaction>) => OfCategoryType(t.data, categories, categoryType));
    FilterMembers(rows, (t: Row<Transaction>) => OfCategoryType(t.data, categories, categoryType));
    ScopeToUserSelects(query, userId);
    ScopeToUser(query, userId)
  }

  function FindTransactionsByCategory(rows: seq<Row<Transaction>>, categoryId: Id, userId: Option<Id>)
    : (r: seq<Row<Transaction>>)
    ensures Selects(r, rows, (t: Row<Transaction>) => t.data.categoryId == categoryId && VisibleTo(t.data, userId))
  {
    var query := Filter(rows, (t: Row<Transaction>) => t.data.categoryId == categoryId);
    FilterMembers(rows, (t: Row<Transaction>) => t.data.categoryId == categoryId);
    ScopeToUserSelects(query, userId);
    ScopeToUser(query, userId)
  }

  /** `whereHas('tags', tag_id = $tagId)`: an `exists` over the `tags`
      table joined with the pivot, so a pivot row counts only while its tag
      row still exists. */
  predicate HasTag(tags: seq<Row<Tag>>, links: seq<Link>, transactionId: Id, tagId: Id) {
    HasId(tags, tagId) && Link(tagId, transactionId) in links
  }

  function Tagged(tags: seq<Row<Tag>>, links: seq<Link>, tagId: Id): Row<Transaction> -> bool {
    (t: Row<Transaction>) => HasTag(tags, links, t.id, tagId)
  }

  function FindTransactionsByTag(
    rows: seq<Row<Transaction>>, tags: seq<Row<Tag>>, links: seq<Link>, tagId: Id, userId: Option<Id>)
    : (r: seq<Row<Transaction>>)
    ensures Selects(r, rows, (t: Row<Transaction>) =>
              (exists k :: 0 <= k < |tags| && tags[k].id == tagId)
              && (exists k :: 0 <= k < |links| && links[k] == Link(tagId, t.id)) && VisibleTo(t.data, userId))
  {
    var query := Filter(rows, Tagged(tags, links, tagId));
    FilterMembers(rows, Tagged(tags, links, tagId));
    ScopeToUserSelects(query, userId);
    ScopeToUser(query, userId)
  }

  /** A pivot row left behind by a deleted tag selects nothing: with no tag
      row under the id, no transaction is found for it. */
  lemma DanglingLinkSelectsNothing(
    rows: seq<Row<Transaction>>, tags: seq<Row<Tag>>, links: seq<Link>, tagId: Id, userId: Option<Id>)
    requires !HasId(tags, tagId)
    ensures FindTransactionsByTag(rows, tags, links, tagId, userId) == []
  {
    FilterNone(rows, Tagged(tags, links, tagId));
  }

  function FindRecurringTransactions(rows: seq<Row<Transaction>>, userId: Option<Id>): (r: seq<Row<Transaction>>)
    ensures Selects(r, rows, (t: Row<Transaction>) => t.data.isRecurring && VisibleTo(t.data, userId))
  {
    var query := Filter(rows, (t: Row<Transaction>) => t.data.isRecurring);
    FilterMembers(rows, (t: Row<Transaction>) => t.data.isRecurring);
    ScopeToUserSelects(query, userId);
    ScopeToUser(query, userId)
  }

  /** `attachTags`: false and no change for a missing transaction. */
  method AttachTags(transactions: Repository<Transaction>, pivot: TagTransactionPivot, transactionId: Id, tagIds: seq<Id>)
    returns (ok: bool)
    modifies pivot
    ensures ok == HasId(transactions.rows, transactionId)
    ensures pivot.links == if ok then old(pivot.links) + LinksFor(transactionId, tagIds) else old(pivot.links)
  {
    if Find(transactions.rows, transactionId).None? {
      return false;
    }
    pivot.Attach(transactionId, tagIds);
    ok := true;
  }

  /** `detachTags`: false and no change for a missing transaction. */
  method DetachTags(
    transactions: Repository<Transaction>, pivot: TagTransactionPivot, transactionId: Id, tagIds: Option<seq<Id>>)
    returns (ok: bool)
    modifies pivot
    ensures ok == HasId(transactions.rows, transactionId)
    ensures pivot.links == if ok then Detached(old(pivot.links), transactionId, tagIds) else old(pivot.links)
  {
    if Find(transactions.rows, transactionId).None? {
      return false;
    }
    pivot.Detach(transactionId, tagIds);
    ok := true;
  }
}
