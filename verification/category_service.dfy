/** `CategoryService::mergeCategories`: moving every transaction of one
    category onto another and deleting the first, all or nothing. */
module CategoryService {
  import opened Wrappers
  import opened Seqs
  import opened Entities
  import opened BaseRepository
  import opened TransactionService

  /** The guards of a merge: both categories exist and the source is not a
      system category. Only the source's flag is read. */
  predicate MergeAllowed(categories: seq<Row<Category>>, sourceId: Id, targetId: Id) {
    HasId(categories, sourceId) && HasId(categories, targetId)
    && !Find(categories, sourceId).value.data.isSystem
  }

  /** The mass update's `where('category_id', $sourceId)`. */
  function FromCategory(sourceId: Id): Transaction -> bool {
    (x: Transaction) => x.categoryId == sourceId
  }

  /** The mass update's `['category_id' => $targetId]`. */
  function Reassign(targetId: Id): Transaction -> Transaction {
    (x: Transaction) => x.(categoryId := targetId)
  }

  /** The transaction table after the merge's mass update. */
  function Moved(rows: seq<Row<Transaction>>, sourceId: Id, targetId: Id): seq<Row<Transaction>> {
    PatchedWhere(rows, FromCategory(sourceId), Reassign(targetId))
  }

  /** The mass update moves the source's transactions, of every user, onto
      the target: the target then holds both groups, counted and summed, and
      the source holds none. */
  lemma {:induction false} MovedTarget(rows: seq<Row<Transaction>>, sourceId: Id, targetId: Id)
    requires sourceId != targetId
    ensures |Filter(Moved(rows, sourceId, targetId), InCategory(targetId))|
            == |Filter(rows, InCategory(targetId))| + |Filter(rows, InCategory(sourceId))|
    ensures Total(Filter(Moved(rows, sourceId, targetId), InCategory(targetId)))
            == Total(Filter(rows, InCategory(targetId))) + Total(Filter(rows, InCategory(sourceId)))
    ensures Filter(Moved(rows, sourceId, targetId), InCategory(sourceId)) == []
    decreases |rows|
  {
    if |rows| > 0 {
      assert Moved(rows, sourceId, targetId)[1..] == Moved(rows[1..], sourceId, targetId);
      MovedTarget(rows[1..], sourceId, targetId);
      var m := Moved(rows, sourceId, targetId);
      var inT, inS := InCategory(targetId), InCategory(sourceId);
      TotalAppend(if inT(m[0]) then [m[0]] else [], Filter(m[1..], inT));
      TotalAppend(if inT(rows[0]) then [rows[0]] else [], Filter(rows[1..], inT));
      TotalAppend(if inS(rows[0]) then [rows[0]] else [], Filter(rows[1..], inS));
    }
  }

  /** Any third category keeps exactly the transactions it had, and every
      transaction outside the source is left as it was. */
  lemma {:induction false} MovedOthers(rows: seq<Row<Transaction>>, sourceId: Id, targetId: Id, other: Id)
    requires other != sourceId && other != targetId
    ensures Filter(Moved(rows, sourceId, targetId), InCategory(other)) == Filter(rows, InCategory(other))
    ensures |Moved(rows, sourceId, targetId)| == |rows|
    ensures forall i :: 0 <= i < |rows| ==>
              Moved(rows, sourceId, targetId)[i].id == rows[i].id
              && (rows[i].data.categoryId != sourceId ==> Moved(rows, sourceId, targetId)[i] == rows[i])
    decreases |rows|
  {
    if |rows| > 0 {
      assert Moved(rows, sourceId, targetId)[1..] == Moved(rows[1..], sourceId, targetId);
      MovedOthers(rows[1..], sourceId, targetId, other);
    }
  }

  /** After the delete the source is gone and every other category is
      found as before. */
  lemma SourceDeleted(categories: seq<Row<Category>>, sourceId: Id, k: Id)
    requires IdsIncreasing(categories)
    ensures Find(Without(categories, sourceId), k) == if k == sourceId then None else Find(categories, k)
  {
    FindFilter(categories, (row: Row<Category>) => row.id != sourceId, k);
  }

  /** `mergeCategories`. The guards are checked first and answer false
      without touching the store. Inside the database transaction the mass
      update runs, then the delete; `storeError` stands for an exception
      thrown inside it, after which both tables are rolled back and the
      answer is false. */
  method MergeCategories(
    categories: Repository<Category>, transactions: Repository<Transaction>,
    sourceId: Id, targetId: Id, storeError: bool)
    returns (ok: bool)
    requires categories.Valid() && transactions.Valid()
    modifies categories, transactions
    ensures categories.Valid() && transactions.Valid()
    ensures ok <==> MergeAllowed(old(categories.rows), sourceId, targetId) && !storeError
    ensures ok ==> categories.rows == Without(old(categories.rows), sourceId)
                   && transactions.rows == Moved(old(transactions.rows), sourceId, targetId)
    ensures !ok ==> categories.rows == old(categories.rows) && transactions.rows == old(transactions.rows)
    ensures categories.nextId == old(categories.nextId) && transactions.nextId == old(transactions.nextId)
  {
    var source := Find(categories.rows, sourceId);
    var target := Find(categories.rows, targetId);
    if source.None? || target.None? {
      return false;
    }
    if source.value.data.isSystem {
      return false;
    }
    var savedCategories, savedTransactions := categories.rows, transactions.rows;
    var _ := transactions.UpdateWhere(FromCategory(sourceId), Reassign(targetId));
    ok := categories.Delete(sourceId);
    if storeError {
      categories.rows := savedCategories;
      transactions.rows := savedTransactions;
      ok := false;
    }
  }
}
