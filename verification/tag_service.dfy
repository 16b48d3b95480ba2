/** `TagService::createMultipleTags`: normalising a list of tag names,
    looking up the ones the user already owns and inserting the rest, one
    row per name, inside a database transaction. */
module TagService {
  import opened Wrappers
  import opened Seqs
  import opened Entities
  import opened BaseRepository

  /** The characters PHP's `trim` strips by default: space, tab, newline,
      carriage return, NUL and vertical tab. */
  predicate IsTrimmable(c: char) {
    c == ' ' || c == '\t' || c == '\n' || c == '\r' || c == 0 as char || c == 11 as char
  }

  /** Strips trimmable characters from the front. */
  function TrimStart(s: string): (r: string)
    ensures |r| <= |s| && r == s[|s| - |r|..]
    ensures |r| > 0 ==> !IsTrimmable(r[0])
    ensures forall i :: 0 <= i < |s| - |r| ==> IsTrimmable(s[i])
    decreases |s|
  {
    if |s| > 0 && IsTrimmable(s[0]) then TrimStart(s[1..]) else s
  }

  /** Strips trimmable characters from the back. */
  function TrimEnd(s: string): (r: string)
    ensures |r| <= |s| && r == s[..|r|]
    ensures |r| > 0 ==> !IsTrimmable(r[|r| - 1])
    ensures forall i :: |r| <= i < |s| ==> IsTrimmable(s[i])
    decreases |s|
  {
    if |s| > 0 && IsTrimmable(s[|s| - 1]) then TrimEnd(s[..|s| - 1]) else s
  }

  /** PHP's `trim`: the longest infix of `s` that neither starts nor ends
      with a trimmable character. */
  function Trim(s: string): (r: string)
    ensures |r| > 0 ==> !IsTrimmable(r[0]) && !IsTrimmable(r[|r| - 1])
  {
    var t := TrimStart(s);
    assert |TrimEnd(t)| > 0 ==> TrimEnd(t)[0] == t[0];
    TrimEnd(t)
  }

  /** What `trim` removes is trimmable, and what it keeps is `s` with a
      trimmable prefix and suffix cut off. */
  lemma TrimCuts(s: string)
    ensures exists a, b :: (0 <= a <= b <= |s| && Trim(s) == s[a..b]
                           && (forall i :: 0 <= i < a ==> IsTrimmable(s[i]))
                           && (forall i :: b <= i < |s| ==> IsTrimmable(s[i])))
  {
    var t := TrimStart(s);
    var a := |s| - |t|;
    var b := a + |TrimEnd(t)|;
    assert Trim(s) == s[a..b];
    forall i | b <= i < |s| ensures IsTrimmable(s[i]) {
      assert s[i] == t[i - a];
    }
  }

  /** `trim` is idempotent. */
  lemma TrimIdempotent(s: string)
    ensures Trim(Trim(s)) == Trim(s)
  {
    var r := Trim(s);
    assert TrimStart(r) == r;
    assert TrimEnd(r) == r;
  }

  /** A name made only of trimmable characters trims to the empty string. */
  lemma TrimBlank(s: string)
    requires forall i :: 0 <= i < |s| ==> IsTrimmable(s[i])
    ensures Trim(s) == ""
  {
    assert TrimStart(s) == "";
  }

  /** The strings `array_filter` drops: PHP's falsy strings. */
  predicate IsFalsy(s: string) {
    s == "" || s == "0"
  }

  /** `array_map('trim', ...)`. */
  function TrimAll(names: seq<string>): (r: seq<string>)
    ensures |r| == |names| && forall i :: 0 <= i < |names| ==> r[i] == Trim(names[i])
  {
    seq(|names|, i requires 0 <= i < |names| => Trim(names[i]))
  }

  function NotFalsy(): string -> bool {
    (s: string) => !IsFalsy(s)
  }

  /** The names after trimming, `array_unique` and `array_filter`. */
  function NormalisedNames(names: seq<string>): seq<string> {
    Filter(Unique(TrimAll(names)), NotFalsy())
  }

  /** The normalised names are distinct, each one trimmed and truthy, and
      they are exactly the truthy trimmed input names. */
  lemma NormalisedNamesMeaning(names: seq<string>)
    ensures Distinct(NormalisedNames(names))
    ensures forall n :: n in NormalisedNames(names) <==> n in TrimAll(names) && !IsFalsy(n)
    ensures forall n :: n in NormalisedNames(names) ==> Trim(n) == n
  {
    var t := TrimAll(names);
    var u := Unique(t);
    var r := NormalisedNames(names);
    FilterDistinct(u, NotFalsy());
    forall n ensures n in r <==> n in t && !IsFalsy(n) {
      if n in r {
        var i :| 0 <= i < |r| && r[i] == n;
        assert n in u && !IsFalsy(n) by {
          FilterMembers(u, NotFalsy());
          assert NotFalsy()(r[i]);
        }
        var j :| 0 <= j < |u| && u[j] == n;
        UniqueMembers(t);
      }
      if n in t && !IsFalsy(n) {
        assert n in u by {
          UniqueMembers(t);
        }
        var j :| 0 <= j < |u| && u[j] == n;
        FilterMembers(u, NotFalsy());
      }
    }
    forall n | n in r ensures Trim(n) == n {
      var k :| 0 <= k < |names| && t[k] == n;
      TrimIdempotent(names[k]);
    }
  }

  /** The conditions of the existing-tags lookup: the user's tags whose
      name is in the list. */
  function ExistingConditions(userId: Id, names: seq<string>): seq<Tag -> bool> {
    [(t: Tag) => t.userId == userId, (t: Tag) => t.name in names]
  }

  /** The tags the user already owns under one of the names. */
  function ExistingTags(rows: seq<Row<Tag>>, names: seq<string>, userId: Id): seq<Row<Tag>> {
    FindWhere(rows, ExistingConditions(userId, names))
  }

  /** The lookup selects the user's tags whose name is listed. */
  lemma ExistingTagsSelects(rows: seq<Row<Tag>>, names: seq<string>, userId: Id)
    ensures Selects(ExistingTags(rows, names, userId), rows,
                    (t: Row<Tag>) => t.data.userId == userId && t.data.name in names)
  {
    var conds := ExistingConditions(userId, names);
    forall t: Row<Tag> ensures AllHold(conds, t.data) <==> t.data.userId == userId && t.data.name in names {
      assert conds[0](t.data) == (t.data.userId == userId);
      assert conds[1](t.data) == (t.data.name in names);
    }
  }

  /** `pluck('name')`. */
  function TagNames(rows: seq<Row<Tag>>): (r: seq<string>)
    ensures |r| == |rows| && forall i :: 0 <= i < |rows| ==> r[i] == rows[i].data.name
  {
    seq(|rows|, i requires 0 <= i < |rows| => rows[i].data.name)
  }

  /** `array_diff`: the names not among the existing ones, in input order. */
  function NewTagNames(names: seq<string>, existingNames: seq<string>): seq<string> {
    Filter(names, NotAmong(existingNames))
  }

  function NotAmong(existingNames: seq<string>): string -> bool {
    (n: string) => n !in existingNames
  }

  /** The user owns a tag with this name. */
  predicate OwnsTagNamed(rows: seq<Row<Tag>>, userId: Id, name: string) {
    exists i :: 0 <= i < |rows| && rows[i].data.userId == userId && rows[i].data.name == name
  }

  /** A listed name is among the existing names exactly when the user owns
      a tag under it. */
  lemma ExistingNamesMeaning(rows: seq<Row<Tag>>, names: seq<string>, userId: Id, n: string)
    requires n in names
    ensures n in TagNames(ExistingTags(rows, names, userId)) <==> OwnsTagNamed(rows, userId, n)
  {
    var existing := ExistingTags(rows, names, userId);
    ExistingTagsSelects(rows, names, userId);
    if n in TagNames(existing) {
      var k :| 0 <= k < |existing| && TagNames(existing)[k] == n;
      var j :| 0 <= j < |rows| && rows[j] == existing[k];
    }
    if OwnsTagNamed(rows, userId, n) {
      var j :| 0 <= j < |rows| && rows[j].data.userId == userId && rows[j].data.name == n;
      var k :| 0 <= k < |existing| && existing[k] == rows[j];
      assert TagNames(existing)[k] == n;
    }
  }

  /** The names still to create are exactly the normalised names the user
      owns no tag under, each once. */
  lemma NewTagNamesMeaning(rows: seq<Row<Tag>>, tagNames: seq<string>, userId: Id)
    ensures var names := NormalisedNames(tagNames);
            var newNames := NewTagNames(names, TagNames(ExistingTags(rows, names, userId)));
            Distinct(newNames)
            && forall n :: n in newNames <==> n in names && !OwnsTagNamed(rows, userId, n)
  {
    var names := NormalisedNames(tagNames);
    var existingNames := TagNames(ExistingTags(rows, names, userId));
    var p := NotAmong(existingNames);
    var newNames := Filter(names, p);
    assert Distinct(newNames) by {
      NormalisedNamesMeaning(tagNames);
      FilterDistinct(names, p);
    }
    forall n ensures n in newNames <==> n in names && !OwnsTagNamed(rows, userId, n) {
      if n in newNames {
        var i :| 0 <= i < |newNames| && newNames[i] == n;
        assert n in names && p(n) by {
          FilterMembers(names, p);
        }
        ExistingNamesMeaning(rows, names, userId, n);
      }
      if n in names && !OwnsTagNamed(rows, userId, n) {
        ExistingNamesMeaning(rows, names, userId, n);
        var j :| 0 <= j < |names| && names[j] == n;
        FilterMembers(names, p);
      }
    }
  }

  /** The rows the inserts append: one per name, under consecutive keys
      from `firstId`, owned by the user. */
  function Created(firstId: Id, names: seq<string>, userId: Id): (r: seq<Row<Tag>>)
    ensures |r| == |names|
    ensures forall i :: 0 <= i < |names| ==> r[i] == Row(firstId + i, Tag(names[i], userId))
  {
    seq(|names|, i requires 0 <= i < |names| => Row(firstId + i, Tag(names[i], userId)))
  }

  /** The inserts of `createMultipleTags`, inside its database
      transaction: one `create` per name, pushed in order. `failAt` is the
      position of an insert that throws, if one does; the transaction is
      then rolled back and `failed` is set. */
  method InsertTags(tags: Repository<Tag>, names: seq<string>, userId: Id, failAt: Option<nat>)
    returns (created: seq<Row<Tag>>, failed: bool)
    requires tags.Valid()
    modifies tags
    ensures tags.Valid()
    ensures failed <==> failAt.Some? && failAt.value < |names|
    ensures failed ==> created == [] && tags.rows == old(tags.rows) && tags.nextId == old(tags.nextId)
    ensures !failed ==> created == Created(old(tags.nextId), names, userId)
                        && tags.rows == old(tags.rows) + created
                        && tags.nextId == old(tags.nextId) + |names|
  {
    var saved, savedNext := tags.rows, tags.nextId;
    created := [];
    var i := 0;
    while i < |names|
      invariant 0 <= i <= |names|
      invariant tags.Valid()
      invariant created == Created(savedNext, names[..i], userId)
      invariant tags.rows == saved + created && tags.nextId == savedNext + i
      invariant failAt.Some? ==> failAt.value >= i
    {
      if failAt == Some(i) {
        tags.rows, tags.nextId := saved, savedNext;
        return [], true;
      }
      var tag := tags.Create(Tag(names[i], userId));
      assert Created(savedNext, names[..i + 1], userId) == created + [tag];
      created := created + [tag];
      i := i + 1;
    }
    assert names[..i] == names;
    failed := false;
  }

  /** `createMultipleTags`: the existing tags followed by the created ones,
      or nothing when an insert throws and the transaction is rolled back. */
  method CreateMultipleTags(tags: Repository<Tag>, tagNames: seq<string>, userId: Id, failAt: Option<nat>)
    returns (result: seq<Row<Tag>>)
    requires tags.Valid()
    modifies tags
    ensures tags.Valid()
    ensures var names := NormalisedNames(tagNames);
            var existing := ExistingTags(old(tags.rows), names, userId);
            var newNames := NewTagNames(names, TagNames(existing));
            if failAt.Some? && failAt.value < |newNames| then
              result == [] && tags.rows == old(tags.rows) && tags.nextId == old(tags.nextId)
            else
              result == existing + Created(old(tags.nextId), newNames, userId)
              && tags.rows == old(tags.rows) + Created(old(tags.nextId), newNames, userId)
              && tags.nextId == old(tags.nextId) + |newNames|
  {
    var names := NormalisedNames(tagNames);
    var existing := ExistingTags(tags.rows, names, userId);
    var newNames := NewTagNames(names, TagNames(existing));
    var created, failed := InsertTags(tags, newNames, userId, failAt);
    result := if failed then [] else existing + created;
  }

  /** Repeating a successful call creates nothing: every name it would
      insert is now owned by the user. */
  lemma SecondCallCreatesNothing(rows: seq<Row<Tag>>, tagNames: seq<string>, userId: Id, firstId: Id)
    ensures var names := NormalisedNames(tagNames);
            var newNames := NewTagNames(names, TagNames(ExistingTags(rows, names, userId)));
            var after := rows + Created(firstId, newNames, userId);
            NewTagNames(names, TagNames(ExistingTags(after, names, userId))) == []
  {
    var names := NormalisedNames(tagNames);
    var newNames := NewTagNames(names, TagNames(ExistingTags(rows, names, userId)));
    var created := Created(firstId, newNames, userId);
    var after := rows + created;
    var existingNames := TagNames(ExistingTags(after, names, userId));
    forall k | 0 <= k < |names| ensures names[k] in existingNames {
      var n := names[k];
      assert OwnsTagNamed(after, userId, n) by {
        ExistingNamesMeaning(rows, names, userId, n);
        NewTagNamesMeaning(rows, tagNames, userId);
        if n in newNames {
          var m :| 0 <= m < |newNames| && newNames[m] == n;
          assert after[|rows| + m] == created[m];
        } else {
          var j :| 0 <= j < |rows| && rows[j].data.userId == userId && rows[j].data.name == n;
          assert after[j] == rows[j];
        }
      }
      ExistingNamesMeaning(after, names, userId, n);
    }
    FilterNone(names, NotAmong(existingNames));
  }

  /** A name without surrounding whitespace trims to itself. */
  lemma TrimUntouched(s: string)
    requires |s| > 0 && !IsTrimmable(s[0]) && !IsTrimmable(s[|s| - 1])
    ensures Trim(s) == s
  {
  }

  /** A name that is already trimmed and truthy, such as "Valid Tag". */
  predicate PlainName(s: string) {
    |s| > 0 && !IsTrimmable(s[0]) && !IsTrimmable(s[|s| - 1]) && s != "0"
  }

  lemma BlankNamesTrimmed(a: string, b: string)
    requires PlainName(a) && PlainName(b)
    ensures TrimAll([a, "", "  ", b]) == [a, "", "", b]
  {
    TrimUntouched(a);
    TrimUntouched(b);
    TrimBlank("  ");
    assert Trim("") == "";
  }

  lemma BlankNamesDeduplicated(a: string, b: string)
    requires PlainName(a) && PlainName(b) && a != b
    ensures Unique([a, "", "", b]) == [a, "", b]
  {
    UniqueOfDistinct([a, ""]);
    assert [a, "", "", b] == [a, ""] + [""] + [b];
    UniqueSnoc([a, ""], "");
    UniqueSnoc([a, ""] + [""], b);
  }

  lemma BlankNamesFiltered(a: string, b: string)
    requires PlainName(a) && PlainName(b)
    ensures Filter([a, "", b], NotFalsy()) == [a, b]
  {
    var p := NotFalsy();
    assert p(a) && !p("") && p(b);
    assert Filter([b], p) == [b] by {
      assert [b][1..] == [];
    }
    assert Filter(["", b], p) == [b] by {
      assert ["", b][1..] == [b];
    }
    assert [a, "", b][1..] == ["", b];
  }

  /** Empty and blank names are dropped: `["Valid Tag", "", "  ",
      "Another Tag"]` normalises to its two plain names. */
  lemma BlankNamesDropped(a: string, b: string)
    requires PlainName(a) && PlainName(b) && a != b
    ensures NormalisedNames([a, "", "  ", b]) == [a, b]
  {
    BlankNamesTrimmed(a, b);
    BlankNamesDeduplicated(a, b);
    BlankNamesFiltered(a, b);
  }

  lemma RepeatedNamesTrimmed(n1: string, n2: string, e: string)
    requires PlainName(n1) && PlainName(n2) && PlainName(e)
    ensures TrimAll([n1, n2, e, n1]) == [n1, n2, e, n1]
  {
    TrimUntouched(n1);
    TrimUntouched(n2);
    TrimUntouched(e);
  }

  lemma RepeatedNamesDeduplicated(n1: string, n2: string, e: string)
    requires n1 != n2 && n1 != e && n2 != e
    ensures Unique([n1, n2, e, n1]) == [n1, n2, e]
  {
    UniqueOfDistinct([n1, n2, e]);
    UniqueSnoc([n1, n2, e], n1);
    assert [n1, n2, e] + [n1] == [n1, n2, e, n1];
  }

  /** The names `['New Tag 1', 'New Tag 2', 'Existing Tag', 'New Tag 1']`
      normalise to their three distinct names, in first-occurrence order. */
  lemma RepeatedNamesNormalised(n1: string, n2: string, e: string)
    requires PlainName(n1) && PlainName(n2) && PlainName(e)
    requires n1 != n2 && n1 != e && n2 != e
    ensures NormalisedNames([n1, n2, e, n1]) == [n1, n2, e]
  {
    var names := [n1, n2, e];
    assert Unique(TrimAll([n1, n2, e, n1])) == names by {
      RepeatedNamesTrimmed(n1, n2, e);
      RepeatedNamesDeduplicated(n1, n2, e);
    }
    assert Filter(names, NotFalsy()) == names by {
      assert forall i :: 0 <= i < |names| ==> NotFalsy()(names[i]);
      FilterAll(names, NotFalsy());
    }
  }

  lemma ExistingTagFound(names: seq<string>, e: string, userId: Id, id: Id)
    requires e in names
    ensures ExistingTags([Row(id, Tag(e, userId))], names, userId) == [Row(id, Tag(e, userId))]
  {
    var row := Row(id, Tag(e, userId));
    ExistingTagsSelects([row], names, userId);
    var r := ExistingTags([row], names, userId);
    assert AllHold(ExistingConditions(userId, names), row.data);
    assert Filter([row], (t: Row<Tag>) => AllHold(ExistingConditions(userId, names), t.data)) == [row] by {
      assert [row][1..] == [];
    }
  }

  /** The store's test: with "Existing Tag" already owned, the names
      `["New Tag 1", "New Tag 2", "Existing Tag", "New Tag 1"]` find that one
      tag and leave two names to create, so a successful call answers three
      tags and the user owns three tags afterwards. */
  lemma ExistingAndRepeatedNames(n1: string, n2: string, e: string, userId: Id, id: Id)
    requires PlainName(n1) && PlainName(n2) && PlainName(e)
    requires n1 != n2 && n1 != e && n2 != e
    ensures var rows := [Row(id, Tag(e, userId))];
            var names := NormalisedNames([n1, n2, e, n1]);
            var existing := ExistingTags(rows, names, userId);
            var newNames := NewTagNames(names, TagNames(existing));
            existing == rows && newNames == [n1, n2]
            && |existing + Created(id + 1, newNames, userId)| == 3
            && |rows + Created(id + 1, newNames, userId)| == 3
  {
    var rows := [Row(id, Tag(e, userId))];
    RepeatedNamesNormalised(n1, n2, e);
    var names := [n1, n2, e];
    ExistingTagFound(names, e, userId, id);
    assert TagNames(rows) == [e];
    var p := NotAmong([e]);
    assert p(n1) && p(n2) && !p(e);
    assert Filter([e], p) == [] by {
      assert [e][1..] == [];
    }
    assert Filter([n2, e], p) == [n2] by {
      assert [n2, e][1..] == [e];
    }
    assert Filter(names, p) == [n1, n2] by {
      assert names[1..] == [n2, e];
    }
  }
}
