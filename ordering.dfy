/** The `ORDER BY a, b` of the ledger queries: rows are ordered by a
    two-part integer key, compared lexicographically. The database's sort
    is modelled by an insertion sort that is proved to return an ordered
    permutation of its input (the database's order among equal keys is
    unspecified, and so is this one's). */
module Ordering {

  datatype Key = Key(major: int, minor: int)

  predicate KeyLe(a: Key, b: Key) {
    a.major < b.major || (a.major == b.major && a.minor <= b.minor)
  }

  predicate SortedBy<T>(s: seq<T>, key: T -> Key) {
    forall i, j :: 0 <= i < j < |s| ==> KeyLe(key(s[i]), key(s[j]))
  }

  function Insert<T(==,!new)>(x: T, s: seq<T>, key: T -> Key): (r: seq<T>)
    requires SortedBy(s, key)
    ensures SortedBy(r, key)
    ensures multiset(r) == multiset(s) + multiset{x}
    ensures forall y :: y in r <==> y == x || y in s
  {
    if |s| == 0 then [x]
    else if KeyLe(key(x), key(s[0])) then [x] + s
    else
      var rest := Insert(x, s[1..], key);
      assert s == [s[0]] + s[1..];
      assert forall y :: y in rest ==> KeyLe(key(s[0]), key(y));
      [s[0]] + rest
  }

  /** The rows of `s`, each exactly once, in key order. */
  function SortBy<T(==,!new)>(s: seq<T>, key: T -> Key): (r: seq<T>)
    ensures SortedBy(r, key)
    ensures multiset(r) == multiset(s)
    ensures forall y :: y in r <==> y in s
  {
    if |s| == 0 then []
    else
      assert s == [s[0]] + s[1..];
      Insert(s[0], SortBy(s[1..], key), key)
  }

  /** `skip(offset).take(limit)`. */
  function SkipTake<T>(s: seq<T>, offset: nat, limit: nat): (r: seq<T>)
    ensures |r| <= limit
    ensures offset <= |s| ==> |r| == if |s| - offset < limit then |s| - offset else limit
    ensures forall k :: 0 <= k < |r| ==> offset + k < |s| && r[k] == s[offset + k]
  {
    if offset >= |s| then []
    else if |s| - offset <= limit then s[offset..]
    else s[offset..offset + limit]
  }

  /** A page of an ordered listing is ordered and holds only listed rows. */
  lemma SkipTakeSorted<T>(s: seq<T>, offset: nat, limit: nat, key: T -> Key)
    requires SortedBy(s, key)
    ensures SortedBy(SkipTake(s, offset, limit), key)
    ensures forall y :: y in SkipTake(s, offset, limit) ==> y in s
  {
    var r := SkipTake(s, offset, limit);
    forall i, j | 0 <= i < j < |r|
      ensures KeyLe(key(r[i]), key(r[j]))
    {
      assert r[i] == s[offset + i] && r[j] == s[offset + j];
    }
    forall y | y in r
      ensures y in s
    {
      var k :| 0 <= k < |r| && r[k] == y;
      assert s[offset + k] == y;
    }
  }
}
