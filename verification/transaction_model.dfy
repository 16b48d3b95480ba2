/** The query scopes of the transaction model and its many-to-many `tags()`
    relation, whose pivot rows `attach` and `detach` write. */
module TransactionModel {
  import opened Wrappers
  import opened Seqs
  import opened Entities
  import opened BaseRepository

  /** `scopeForUser`: `user_id = $userId`. */
  predicate ForUser(t: Transaction, userId: Id) {
    t.userId == userId
  }

  /** `scopeBetweenDates`: `whereBetween('date', [start, end])`, inclusive at
      both ends. */
  predicate BetweenDates(t: Transaction, startDate: Date, endDate: Date) {
    DateLe(startDate, t.date) && DateLe(t.date, endDate)
  }

  /** The type of the category a transaction belongs to, when that category
      exists. */
  function CategoryTypeOf(categories: seq<Row<Category>>, t: Transaction): Option<CategoryType> {
    match Find(categories, t.categoryId)
    case Some(c) => Some(c.data.categoryType)
    case None => None
  }

  /** `scopeOfCategoryType`: `whereHas('category', type = $type)`. */
  predicate OfCategoryType(t: Transaction, categories: seq<Row<Category>>, categoryType: CategoryType) {
    CategoryTypeOf(categories, t) == Some(categoryType)
  }

  /** A transaction whose category exists belongs to exactly one of the three
      category types. */
  lemma OneCategoryType(t: Transaction, categories: seq<Row<Category>>)
    requires HasId(categories, t.categoryId)
    ensures OfCategoryType(t, categories, Income) || OfCategoryType(t, categories, Expense)
            || OfCategoryType(t, categories, Investment)
    ensures !(OfCategoryType(t, categories, Income) && OfCategoryType(t, categories, Expense))
    ensures !(OfCategoryType(t, categories, Income) && OfCategoryType(t, categories, Investment))
    ensures !(OfCategoryType(t, categories, Expense) && OfCategoryType(t, categories, Investment))
  {
    match Find(categories, t.categoryId).value.data.categoryType
    case Income =>
    case Expense =>
    case Investment =>
  }

  /** The pivot rows `attach($tagIds)` inserts: one per listed id, in order,
      duplicates included. */
  function LinksFor(transactionId: Id, tagIds: seq<Id>): seq<Link> {
    seq(|tagIds|, i requires 0 <= i < |tagIds| => Link(tagIds[i], transactionId))
  }

  /** The pivot rows `detach($tagIds)` deletes: the transaction's rows for the
      listed tags, or all of its rows when no list is given. */
  predicate Detaches(l: Link, transactionId: Id, tagIds: Option<seq<Id>>) {
    l.transactionId == transactionId && (tagIds.None? || l.tagId in tagIds.value)
  }

  function Survives(transactionId: Id, tagIds: Option<seq<Id>>): Link -> bool {
    (l: Link) => !Detaches(l, transactionId, tagIds)
  }

  function Detached(links: seq<Link>, transactionId: Id, tagIds: Option<seq<Id>>): seq<Link> {
    Filter(links, Survives(transactionId, tagIds))
  }

  function LinkOf(transactionId: Id): Link -> bool {
    (l: Link) => l.transactionId == transactionId
  }

  /** The ids of the tags linked to a transaction, one per pivot row. */
  function TagIdsOf(links: seq<Link>, transactionId: Id): seq<Id> {
    var own := Filter(links, LinkOf(transactionId));
    seq(|own|, i requires 0 <= i < |own| => own[i].tagId)
  }

  /** Attaching links every listed tag to the transaction, keeps every
      earlier link, and leaves the links of other transactions alone. */
  lemma {:induction false} AttachLinks(links: seq<Link>, transactionId: Id, tagIds: seq<Id>, other: Id)
    requires other != transactionId
    ensures forall i :: 0 <= i < |tagIds| ==> Link(tagIds[i], transactionId) in links + LinksFor(transactionId, tagIds)
    ensures TagIdsOf(links + LinksFor(transactionId, tagIds), other) == TagIdsOf(links, other)
    ensures |TagIdsOf(links + LinksFor(transactionId, tagIds), transactionId)| ==
            |TagIdsOf(links, transactionId)| + |tagIds|
  {
    var added := LinksFor(transactionId, tagIds);
    forall i | 0 <= i < |tagIds| ensures Link(tagIds[i], transactionId) in links + added {
      assert (links + added)[|links| + i] == added[i];
    }
    FilterAppend(links, added, LinkOf(other));
    FilterNone(added, LinkOf(other));
    FilterAppend(links, added, LinkOf(transactionId));
    FilterAll(added, LinkOf(transactionId));
  }

  /** The tag-id filter of a detach list: ids not listed. */
  function Unlisted(ids: seq<Id>): Id -> bool {
    (t: Id) => t !in ids
  }

  /** The tag ids of a concatenation of pivot rows. */
  lemma TagIdsOfAppend(a: seq<Link>, b: seq<Link>, transactionId: Id)
    ensures TagIdsOf(a + b, transactionId) == TagIdsOf(a, transactionId) + TagIdsOf(b, transactionId)
  {
    FilterAppend(a, b, LinkOf(transactionId));
  }

  /** Detaching a list keeps exactly the transaction's links to the tags
      not listed, in their order. */
  lemma {:induction false} DetachedTagIds(links: seq<Link>, transactionId: Id, ids: seq<Id>)
    ensures TagIdsOf(Detached(links, transactionId, Some(ids)), transactionId)
            == Filter(TagIdsOf(links, transactionId), Unlisted(ids))
    decreases |links|
  {
    if |links| > 0 {
      var l, rest := links[0], links[1..];
      var keep := Survives(transactionId, Some(ids));
      var head := if keep(l) then [l] else [];
      assert links == [l] + rest;
      assert Detached(links, transactionId, Some(ids)) == head + Detached(rest, transactionId, Some(ids));
      DetachedTagIds(rest, transactionId, ids);
      TagIdsOfAppend(head, Detached(rest, transactionId, Some(ids)), transactionId);
      TagIdsOfAppend([l], rest, transactionId);
      FilterAppend(TagIdsOf([l], transactionId), TagIdsOf(rest, transactionId), Unlisted(ids));
      assert [l][1..] == [];
      assert TagIdsOf([], transactionId) == [];
      if l.transactionId == transactionId {
        assert TagIdsOf([l], transactionId) == [l.tagId];
        assert [l.tagId][1..] == [];
      } else {
        assert TagIdsOf([l], transactionId) == [];
      }
    }
  }

  /** After detaching, no removed pair is linked any more, the transaction
      keeps exactly its links to unlisted tags, every link of another
      transaction survives, and detaching everything leaves the transaction
      without tags. */
  lemma {:induction false} DetachLinks(links: seq<Link>, transactionId: Id, tagIds: Option<seq<Id>>, other: Id)
    requires other != transactionId
    ensures forall l :: l in Detached(links, transactionId, tagIds) ==> !Detaches(l, transactionId, tagIds)
    ensures TagIdsOf(Detached(links, transactionId, tagIds), other) == TagIdsOf(links, other)
    ensures tagIds.None? ==> TagIdsOf(Detached(links, transactionId, tagIds), transactionId) == []
    ensures tagIds.Some? ==> TagIdsOf(Detached(links, transactionId, tagIds), transactionId)
                             == Filter(TagIdsOf(links, transactionId), Unlisted(tagIds.value))
  {
    var keep := Survives(transactionId, tagIds);
    var mine := LinkOf(transactionId);
    var theirs := LinkOf(other);
    FilterFilter(links, keep, theirs, theirs);
    if tagIds.None? {
      var never := (l: Link) => false;
      FilterFilter(links, keep, mine, never);
      FilterNone(links, never);
    } else {
      DetachedTagIds(links, transactionId, tagIds.value);
    }
  }

  /** Three tags attached, the first detached: the other two remain. */
  lemma DetachOneOfThree(transactionId: Id, a: Id, b: Id, c: Id)
    requires a != b && a != c
    ensures TagIdsOf(Detached(LinksFor(transactionId, [a, b, c]), transactionId, Some([a])), transactionId) == [b, c]
  {
    var links := LinksFor(transactionId, [a, b, c]);
    assert TagIdsOf(links, transactionId) == [a, b, c] by {
      FilterAll(links, LinkOf(transactionId));
    }
    DetachedTagIds(links, transactionId, [a]);
    var ids, p := [a, b, c], Unlisted([a]);
    assert ids[1..] == [b, c] && [b, c][1..] == [c] && [c][1..] == [];
    assert Filter([c], p) == [c];
    assert Filter([b, c], p) == [b] + Filter([c], p);
    assert Filter(ids, p) == Filter([b, c], p);
  }

  /** The `tag_transaction` table. */
  class TagTransactionPivot {
    var links: seq<Link>

    constructor ()
      ensures links == []
    {
      links := [];
    }

    /** `tags()->attach($tagIds)`: inserts one pivot row per id. */
    method Attach(transactionId: Id, tagIds: seq<Id>)
      modifies this
      ensures links == old(links) + LinksFor(transactionId, tagIds)
    {
      links := links + LinksFor(transactionId, tagIds);
    }

    /** `tags()->detach($tagIds)`: deletes the transaction's rows for the
        listed tags, or all of them for a null list. */
    method Detach(transactionId: Id, tagIds: Option<seq<Id>>)
      modifies this
      ensures links == Detached(old(links), transactionId, tagIds)
    {
      links := Detached(links, transactionId, tagIds);
    }
  }
}
