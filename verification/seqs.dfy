/** Collection operations the store and the services are built from:
    order-preserving filtering (a `where` clause, `array_filter`,
    `array_diff`) and first-occurrence deduplication (`array_unique`,
    the key order of `groupBy`). */
module Seqs {

  /** Keeps the elements satisfying `p`, in their original order. */
  function Filter<T>(s: seq<T>, p: T -> bool): (r: seq<T>)
    ensures |r| <= |s|
    ensures forall i :: 0 <= i < |r| ==> p(r[i])
    decreases |s|
  {
    if |s| == 0 then []
    else (if p(s[0]) then [s[0]] else []) + Filter(s[1..], p)
  }

  /** The filter keeps exactly the elements satisfying `p`: each of its
      elements comes from `s`, and each element of `s` satisfying `p` is
      kept. */
  lemma {:induction false} FilterMembers<T>(s: seq<T>, p: T -> bool)
    ensures forall i :: 0 <= i < |Filter(s, p)| ==> Filter(s, p)[i] in s
    ensures forall i :: 0 <= i < |s| && p(s[i]) ==> s[i] in Filter(s, p)
    decreases |s|
  {
    if |s| > 0 {
      FilterMembers(s[1..], p);
      var head := if p(s[0]) then [s[0]] else [];
      assert Filter(s, p) == head + Filter(s[1..], p);
      forall i | 0 <= i < |Filter(s, p)| ensures Filter(s, p)[i] in s {
        if i >= |head| {
          assert Filter(s, p)[i] == Filter(s[1..], p)[i - |head|];
        }
      }
      forall i | 0 <= i < |s| && p(s[i]) ensures s[i] in Filter(s, p) {
        if i > 0 {
          assert s[i] == s[1..][i - 1];
        }
      }
    }
  }

  /** Filtering distributes over concatenation. */
  lemma {:induction false} FilterAppend<T>(a: seq<T>, b: seq<T>, p: T -> bool)
    ensures Filter(a + b, p) == Filter(a, p) + Filter(b, p)
    decreases |a|
  {
    if |a| == 0 {
      assert a + b == b;
    } else {
      assert (a + b)[1..] == a[1..] + b;
      FilterAppend(a[1..], b, p);
    }
  }

  /** Two successive filters are one filter on the conjunction: this is how
      chained query scopes compose. */
  lemma {:induction false} FilterFilter<T>(s: seq<T>, p: T -> bool, q: T -> bool, both: T -> bool)
    requires forall i :: 0 <= i < |s| ==> both(s[i]) == (p(s[i]) && q(s[i]))
    ensures Filter(Filter(s, p), q) == Filter(s, both)
    decreases |s|
  {
    if |s| > 0 {
      FilterFilter(s[1..], p, q, both);
      var head := if p(s[0]) then [s[0]] else [];
      FilterAppend(head, Filter(s[1..], p), q);
    }
  }

  /** A filter and its complement split a sequence: every element lands in
      exactly one of the two results. */
  lemma {:induction false} FilterPartition<T>(s: seq<T>, p: T -> bool, notP: T -> bool)
    requires forall i :: 0 <= i < |s| ==> notP(s[i]) == !p(s[i])
    ensures |Filter(s, p)| + |Filter(s, notP)| == |s|
    ensures multiset(Filter(s, p)) + multiset(Filter(s, notP)) == multiset(s)
    decreases |s|
  {
    if |s| > 0 {
      FilterPartition(s[1..], p, notP);
      assert s == [s[0]] + s[1..];
    }
  }

  /** Filters with predicates that agree on every element agree. */
  lemma {:induction false} FilterCongruent<T>(s: seq<T>, p: T -> bool, q: T -> bool)
    requires forall i :: 0 <= i < |s| ==> p(s[i]) == q(s[i])
    ensures Filter(s, p) == Filter(s, q)
    decreases |s|
  {
    if |s| > 0 {
      FilterCongruent(s[1..], p, q);
    }
  }

  /** A filter that keeps everything is the identity. */
  lemma {:induction false} FilterAll<T>(s: seq<T>, p: T -> bool)
    requires forall i :: 0 <= i < |s| ==> p(s[i])
    ensures Filter(s, p) == s
    decreases |s|
  {
    if |s| > 0 {
      FilterAll(s[1..], p);
    }
  }

  /** A filter that keeps nothing gives the empty sequence. */
  lemma {:induction false} FilterNone<T>(s: seq<T>, p: T -> bool)
    requires forall i :: 0 <= i < |s| ==> !p(s[i])
    ensures Filter(s, p) == []
    decreases |s|
  {
    if |s| > 0 {
      FilterNone(s[1..], p);
    }
  }

  ghost predicate Distinct<T>(s: seq<T>) {
    forall i, j :: 0 <= i < j < |s| ==> s[i] != s[j]
  }

  /** Filtering keeps distinct elements distinct. */
  lemma {:induction false} FilterDistinct<T>(s: seq<T>, p: T -> bool)
    requires Distinct(s)
    ensures Distinct(Filter(s, p))
    decreases |s|
  {
    if |s| > 0 {
      FilterDistinct(s[1..], p);
      FilterMembers(s[1..], p);
    }
  }

  /** `array_unique`: drops every element equal to an earlier one, so each
      value keeps the position of its first occurrence. */
  function Unique<T(==)>(s: seq<T>): (r: seq<T>)
    ensures Distinct(r)
    decreases |s|
  {
    if |s| == 0 then []
    else
      var u := Unique(s[..|s| - 1]);
      assert s == s[..|s| - 1] + [s[|s| - 1]];
      if s[|s| - 1] in u then u else u + [s[|s| - 1]]
  }

  /** `Unique` keeps exactly the values of its input. */
  lemma {:induction false} UniqueMembers<T>(s: seq<T>)
    ensures forall i :: 0 <= i < |Unique(s)| ==> Unique(s)[i] in s
    ensures forall i :: 0 <= i < |s| ==> s[i] in Unique(s)
    decreases |s|
  {
    if |s| > 0 {
      var n := |s| - 1;
      UniqueMembers(s[..n]);
      assert s == s[..n] + [s[n]];
      forall i | 0 <= i < n ensures s[i] in Unique(s) {
        assert s[i] == s[..n][i];
      }
    }
  }

  /** Deduplicating one more element keeps it only when it is new. */
  lemma UniqueSnoc<T>(s: seq<T>, x: T)
    ensures Unique(s + [x]) == if x in Unique(s) then Unique(s) else Unique(s) + [x]
  {
    assert (s + [x])[..|s|] == s;
  }

  /** Deduplicating a sequence without duplicates changes nothing, so
      `array_unique` is idempotent. */
  lemma {:induction false} UniqueOfDistinct<T>(s: seq<T>)
    requires Distinct(s)
    ensures Unique(s) == s
    decreases |s|
  {
    if |s| > 0 {
      UniqueOfDistinct(s[..|s| - 1]);
    }
  }

  /** Index of the first occurrence of `x` in `s`. */
  function FirstIndex<T(==)>(s: seq<T>, x: T): (i: nat)
    requires x in s
    ensures i < |s| && s[i] == x && x !in s[..i]
    decreases |s|
  {
    if s[0] == x then 0 else 1 + FirstIndex(s[1..], x)
  }

  /** `Unique` lists the values in the order of their first occurrence. */
  lemma {:induction false} UniqueFirstOccurrenceOrder<T>(s: seq<T>, i: nat, j: nat)
    requires i < j < |Unique(s)|
    ensures Unique(s)[i] in s && Unique(s)[j] in s
            && FirstIndex(s, Unique(s)[i]) < FirstIndex(s, Unique(s)[j])
    decreases |s|
  {
    var n := |s| - 1;
    var pre := s[..n];
    var u := Unique(pre);
    UniqueMembers(pre);
    assert s == pre + [s[n]];
    if s[n] in u {
      assert Unique(s) == u;
      UniqueFirstOccurrenceOrder(pre, i, j);
      FirstIndexPrefix(pre, s, u[i]);
      FirstIndexPrefix(pre, s, u[j]);
    } else {
      assert Unique(s) == u + [s[n]];
      if j < |u| {
        UniqueFirstOccurrenceOrder(pre, i, j);
        FirstIndexPrefix(pre, s, u[i]);
        FirstIndexPrefix(pre, s, u[j]);
      } else {
        FirstIndexPrefix(pre, s, u[i]);
        assert s[n] !in pre;
        assert s[..n] == pre;
        assert Unique(s)[j] == s[n];
      }
    }
  }

  lemma {:induction false} FirstIndexPrefix<T>(pre: seq<T>, s: seq<T>, x: T)
    requires x in pre && pre <= s
    ensures x in s && FirstIndex(s, x) == FirstIndex(pre, x) < |pre|
    decreases |pre|
  {
    if pre[0] != x {
      FirstIndexPrefix(pre[1..], s[1..], x);
    }
  }
}
