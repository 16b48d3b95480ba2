/** The tag finders: ownership, frequency ranking, search, counts and lookup
    by names. */
module TagRepository {
  import opened Wrappers
  import opened Seqs
  import opened Entities
  import opened BaseRepository
  import opened TagModel

  function FindTagsForUser(rows: seq<Row<Tag>>, userId: Id): (r: seq<Row<Tag>>)
    ensures Selects(r, rows, (t: Row<Tag>) => t.data.userId == userId)
  {
    FilterMembers(rows, (t: Row<Tag>) => ForUser(t.data, userId));
    Filter(rows, (t: Row<Tag>) => ForUser(t.data, userId))
  }

  /** `findTagsWithTransactionCount`: each of the user's tags with the number
      of its pivot rows. */
  function FindTagsWithTransactionCount(
    rows: seq<Row<Tag>>, links: seq<Link>, transactions: seq<Row<Transaction>>, userId: Id)
    : (r: seq<Counted<Tag>>)
    ensures |r| == |FindTagsForUser(rows, userId)|
    ensures forall i :: 0 <= i < |r| ==>
              r[i].row in rows && r[i].row.data.userId == userId
              && r[i].count == |Filter(links, (l: Link) => l.tagId == r[i].row.id && HasId(transactions, l.transactionId))|
    ensures forall i :: 0 <= i < |r| ==> r[i].row == FindTagsForUser(rows, userId)[i]
    ensures forall i :: 0 <= i < |rows| && rows[i].data.userId == userId ==>
              exists j :: 0 <= j < |r| && r[j].row == rows[i]
  {
    var owned := FindTagsForUser(rows, userId);
    var r := WithTransactionCount(owned, links, transactions);
    forall i | 0 <= i < |rows| && rows[i].data.userId == userId
      ensures exists j :: 0 <= j < |r| && r[j].row == rows[i]
    {
      var j :| 0 <= j < |owned| && owned[j] == rows[i];
      assert r[j].row == rows[i];
    }
    r
  }

  /** `findTagsByFrequency`: the user's counted tags, most used first. */
  function FindTagsByFrequency(
    rows: seq<Row<Tag>>, links: seq<Link>, transactions: seq<Row<Transaction>>, userId: Id)
    : (r: seq<Counted<Tag>>)
    ensures NonIncreasing(r)
    ensures multiset(r) == multiset(FindTagsWithTransactionCount(rows, links, transactions, userId))
  {
    ByFrequency(WithTransactionCount(FindTagsForUser(rows, userId), links, transactions))
  }

  /** `findTagsBySearch`: the name search, over every user's tags when no
      user is given. */
  function FindTagsBySearch(rows: seq<Row<Tag>>, search: string, userId: Option<Id>): (r: seq<Row<Tag>>)
    ensures Selects(r, rows, (t: Row<Tag>) =>
              Contains(t.data.name, search) && (userId.None? || t.data.userId == userId.value))
  {
    var query := Filter(rows, (t: Row<Tag>) => Search(t.data, search));
    FilterMembers(rows, (t: Row<Tag>) => Search(t.data, search));
    if userId.Some? then
      FilterMembers(query, (t: Row<Tag>) => ForUser(t.data, userId.value));
      Filter(query, (t: Row<Tag>) => ForUser(t.data, userId.value))
    else query
  }

  /** `findTagsByNames`: the user's tags whose name is listed. */
  function FindTagsByNames(rows: seq<Row<Tag>>, userId: Id, names: seq<string>): (r: seq<Row<Tag>>)
    ensures Selects(r, rows, (t: Row<Tag>) => t.data.userId == userId && t.data.name in names)
  {
    var owned := Filter(rows, (t: Row<Tag>) => ForUser(t.data, userId));
    FilterMembers(rows, (t: Row<Tag>) => ForUser(t.data, userId));
    FilterMembers(owned, (t: Row<Tag>) => t.data.name in names);
    Filter(owned, (t: Row<Tag>) => t.data.name in names)
  }
}
