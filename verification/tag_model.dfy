/** The query scopes of the tag model: ownership, substring search, and
    ordering by how many transactions carry the tag. */
module TagModel {
  import opened Seqs
  import opened Entities
  import opened BaseRepository

  /** `scopeForUser`: `user_id = $userId`. */
  predicate ForUser(t: Tag, userId: Id) {
    t.userId == userId
  }

  /** `sub` occurs in `s` starting at position `i`. */
  predicate OccursAt(s: string, sub: string, i: int) {
    0 <= i <= |s| - |sub| && s[i..i + |sub|] == sub
  }

  /** `sub` occurs in `s` as a contiguous piece. */
  predicate Contains(s: string, sub: string) {
    exists i | 0 <= i <= |s| - |sub| :: OccursAt(s, sub, i)
  }

  /** `scopeSearch`: `name like %search%`, taken as plain substring
      containment. */
  predicate Search(t: Tag, search: string) {
    Contains(t.name, search)
  }

  /** Searching for "o" does not match "Restaurant". */
  lemma SearchExcludesRestaurant(userId: Id)
    ensures !Search(Tag("Restaurant", userId), "o")
  {
    var s := "Restaurant";
    forall i | 0 <= i <= |s| - 1 ensures !OccursAt(s, "o", i) {
      assert s[i..i + 1][0] == s[i];
    }
  }

  /** Every string contains itself and the empty string. */
  lemma ContainsSelf(s: string)
    ensures Contains(s, s) && Contains(s, "")
  {
    assert OccursAt(s, s, 0);
    assert OccursAt(s, "", 0);
  }

  /** `withCount('transactions')`: the pivot rows of the tag whose
      transaction exists (the count joins the pivot with the transactions). */
  function TransactionCount(links: seq<Link>, transactions: seq<Row<Transaction>>, tagId: Id): nat {
    |Filter(links, (l: Link) => l.tagId == tagId && HasId(transactions, l.transactionId))|
  }

  function WithTransactionCount(tags: seq<Row<Tag>>, links: seq<Link>, transactions: seq<Row<Transaction>>)
    : seq<Counted<Tag>>
  {
    seq(|tags|, i requires 0 <= i < |tags| => Counted(tags[i], TransactionCount(links, transactions, tags[i].id)))
  }

  ghost predicate NonIncreasing<F>(s: seq<Counted<F>>) {
    forall i, j :: 0 <= i < j < |s| ==> s[i].count >= s[j].count
  }

  /** Places `x` before the first element whose count does not exceed its
      own, so that earlier elements stay ahead of equal ones. */
  function InsertByCount<F>(x: Counted<F>, s: seq<Counted<F>>): (r: seq<Counted<F>>)
    requires NonIncreasing(s)
    ensures NonIncreasing(r)
    ensures multiset(r) == multiset(s) + multiset{x}
    ensures |r| > 0 && (r[0] == x || (|s| > 0 && r[0] == s[0]))
    decreases |s|
  {
    if |s| == 0 || s[0].count <= x.count then [x] + s
    else
      var rest := InsertByCount(x, s[1..]);
      assert s == [s[0]] + s[1..];
      [s[0]] + rest
  }

  /** `scopeByFrequency`: `orderBy('transactions_count', 'desc')`. The
      result is a reordering of its input with non-increasing counts. */
  function ByFrequency<F>(s: seq<Counted<F>>): (r: seq<Counted<F>>)
    ensures NonIncreasing(r)
    ensures multiset(r) == multiset(s)
    decreases |s|
  {
    if |s| == 0 then []
    else
      assert s == [s[0]] + s[1..];
      InsertByCount(s[0], ByFrequency(s[1..]))
  }
}
