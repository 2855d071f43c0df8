/** The `ORDER BY createdAt DESC`, `OFFSET` and `LIMIT` of a store listing.
    Rows with equal timestamps keep their table order. */
module Listing {
  import opened Prelude

  /** Keys never increase along `s`. */
  predicate SortedDesc<T>(s: seq<T>, key: T -> int)
  {
    forall i, j :: 0 <= i < j < |s| ==> key(s[i]) >= key(s[j])
  }

  /** Puts `x` before the first element whose key is not larger. */
  function InsertDesc<T>(x: T, s: seq<T>, key: T -> int): (r: seq<T>)
    ensures |r| == |s| + 1
    ensures multiset(r) == multiset(s) + multiset{x}
  {
    if |s| == 0 || key(s[0]) <= key(x) then [x] + s
    else
      assert s == [s[0]] + s[1..];
      [s[0]] + InsertDesc(x, s[1..], key)
  }

  /** The rows ordered newest first; an element is placed before the later
      rows of equal key, so ties keep the order of `s`. */
  function SortNewestFirst<T>(s: seq<T>, key: T -> int): (r: seq<T>)
    ensures |r| == |s|
    ensures multiset(r) == multiset(s)
  {
    if |s| == 0 then []
    else
      assert s == [s[0]] + s[1..];
      InsertDesc(s[0], SortNewestFirst(s[1..], key), key)
  }

  lemma {:induction false} InsertKeepsSorted<T>(x: T, s: seq<T>, key: T -> int)
    requires SortedDesc(s, key)
    ensures SortedDesc(InsertDesc(x, s, key), key)
  {
    if |s| == 0 || key(s[0]) <= key(x) {
    } else {
      InsertKeepsSorted(x, s[1..], key);
      var t := InsertDesc(x, s[1..], key);
      assert forall y :: y in multiset(t) ==> y == x || y in multiset(s[1..]);
      forall j | 0 <= j < |t| ensures key(s[0]) >= key(t[j]) {
        assert t[j] in multiset(t);
        if t[j] != x {
          assert t[j] in s[1..];
        }
      }
    }
  }

  /** The listing is ordered newest first. */
  lemma {:induction false} SortedNewestFirst<T>(s: seq<T>, key: T -> int)
    ensures SortedDesc(SortNewestFirst(s, key), key)
  {
    if |s| > 0 {
      SortedNewestFirst(s[1..], key);
      InsertKeepsSorted(s[0], SortNewestFirst(s[1..], key), key);
    }
  }

  /** `skip(offset)` then `take(limit)`; `None` takes everything. */
  function Window<T>(s: seq<T>, offset: nat, limit: Option<nat>): (r: seq<T>)
    ensures limit.Some? ==> |r| <= limit.value
    ensures offset >= |s| ==> r == []
    ensures offset < |s| ==> offset + |r| <= |s| && r == s[offset..offset + |r|]
    ensures offset < |s| && (limit.None? || offset + limit.value >= |s|) ==> r == s[offset..]
    ensures offset < |s| && limit.Some? && offset + limit.value < |s| ==> |r| == limit.value
  {
    var rest := if offset >= |s| then [] else s[offset..];
    match limit
    case None => rest
    case Some(n) => if n >= |rest| then rest else rest[..n]
  }

  /** Pages of a fixed size, taken one after another, cover the listing
      without gaps or overlap. */
  lemma {:induction false} ConsecutivePages<T>(s: seq<T>, offset: nat, n: nat)
    ensures Window(s, offset, Some(n)) + Window(s, offset + n, None) == Window(s, offset, None)
  {
    if offset < |s| && offset + n < |s| {
      assert s[offset..offset + n] + s[offset + n..] == s[offset..];
    }
  }

  /** A page of an ordered listing is ordered and holds only listed rows. */
  lemma WindowOfSorted<T>(s: seq<T>, offset: nat, limit: Option<nat>, key: T -> int)
    requires SortedDesc(s, key)
    ensures SortedDesc(Window(s, offset, limit), key)
    ensures forall x :: x in Window(s, offset, limit) ==> x in s
  {
    var r := Window(s, offset, limit);
    if offset < |s| {
      assert forall i :: 0 <= i < |r| ==> r[i] == s[offset + i];
    }
  }

  /** Ordering keeps exactly the rows it was given. */
  lemma SortedMembers<T>(s: seq<T>, key: T -> int)
    ensures forall x :: x in SortNewestFirst(s, key) <==> x in s
  {
    var r := SortNewestFirst(s, key);
    assert forall x :: x in r <==> x in multiset(r);
    assert forall x :: x in s <==> x in multiset(s);
  }
}
