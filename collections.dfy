/**
  Id-keyed record lists, as the dashboard tabs keep them in component state.
  Every operation is the array method the handlers use (`some`, `findIndex`,
  `find`, `map`, `filter`, spread-append, index assignment, `Math.max`), over a
  sequence of records and a function that reads a record's key.
 */
module Collections {

  datatype Option<T> = None | Some(value: T)

  /** No two records share a key. */
  ghost predicate DistinctKeys<T, K>(s: seq<T>, key: T -> K) {
    forall i, j :: 0 <= i < j < |s| ==> key(s[i]) != key(s[j])
  }

  /** `r` is `s` with some records dropped and the rest in their original order. */
  ghost predicate IsSubsequence<T>(r: seq<T>, s: seq<T>)
    decreases |s|
  {
    if r == [] then true
    else if s == [] then false
    else if r[0] == s[0] then IsSubsequence(r[1..], s[1..])
    else IsSubsequence(r, s[1..])
  }

  /** `s.some(x => key(x) === k)` */
  function AnyWithKey<T, K(==)>(s: seq<T>, key: T -> K, k: K): (b: bool)
    ensures b <==> exists i :: 0 <= i < |s| && key(s[i]) == k
  {
    if s == [] then false
    else if key(s[0]) == k then true
    else
      var rest := AnyWithKey(s[1..], key, k);
      assert rest ==> exists i :: 0 <= i < |s| && key(s[i]) == k by {
        if rest {
          var i :| 0 <= i < |s[1..]| && key(s[1..][i]) == k;
          assert key(s[i + 1]) == k;
        }
      }
      rest
  }

  /** `s.findIndex(x => key(x) === k)`: the first index holding key `k`, or -1. */
  function IndexOf<T, K(==)>(s: seq<T>, key: T -> K, k: K): (r: int)
    ensures -1 <= r < |s|
    ensures r == -1 <==> forall i :: 0 <= i < |s| ==> key(s[i]) != k
    ensures 0 <= r ==> key(s[r]) == k && forall j :: 0 <= j < r ==> key(s[j]) != k
  {
    if s == [] then -1
    else if key(s[0]) == k then 0
    else
      var i := IndexOf(s[1..], key, k);
      assert forall j :: 1 <= j < |s| ==> s[j] == s[1..][j - 1];
      if i < 0 then -1 else i + 1
  }

  /** `s.find(x => key(x) === k)`: the first record holding key `k`, if any. */
  function Find<T, K(==)>(s: seq<T>, key: T -> K, k: K): (r: Option<T>)
    ensures r == None <==> !AnyWithKey(s, key, k)
    ensures r.Some? ==> key(r.value) == k
    ensures r.Some? ==> exists i :: 0 <= i < |s| && s[i] == r.value
                          && forall j :: 0 <= j < i ==> key(s[j]) != k
  {
    var i := IndexOf(s, key, k);
    if i < 0 then None else Some(s[i])
  }

  /** `s.map(x => key(x) === k ? y : x)`: every record holding key `k` becomes `y`. */
  function ReplaceByKey<T, K(==)>(s: seq<T>, key: T -> K, k: K, y: T): (r: seq<T>)
    ensures |r| == |s|
    ensures forall i :: 0 <= i < |s| && key(s[i]) == k ==> r[i] == y
    ensures forall i :: 0 <= i < |s| && key(s[i]) != k ==> r[i] == s[i]
  {
    if s == [] then []
    else [if key(s[0]) == k then y else s[0]] + ReplaceByKey(s[1..], key, k, y)
  }

  /**
    `s.filter(x => key(x) !== k)`. The ensures say what is dropped; what is
    kept is proved separately: `RemoveKeepsOthers` (every record with another
    key, as many times as it occurred) and `RemoveKeepsOrder` (in the original
    order).
   */
  function RemoveByKey<T, K(==)>(s: seq<T>, key: T -> K, k: K): (r: seq<T>)
    ensures |r| <= |s|
    ensures forall i :: 0 <= i < |r| ==> key(r[i]) != k && r[i] in s
  {
    if s == [] then []
    else
      var rest := RemoveByKey(s[1..], key, k);
      if key(s[0]) == k then rest
      else
        assert forall i :: 1 <= i < |rest| + 1 ==> ([s[0]] + rest)[i] == rest[i - 1];
        [s[0]] + rest
  }

  /**
    The settings save: overwrite the first record holding `y`'s key at its
    index (a copy of the array with one slot assigned), else append `y`.
   */
  function UpsertByKey<T, K(==)>(s: seq<T>, key: T -> K, y: T): (r: seq<T>)
    ensures |r| == if AnyWithKey(s, key, key(y)) then |s| else |s| + 1
    ensures forall i :: 0 <= i < |s| ==>
              r[i] == if i == IndexOf(s, key, key(y)) then y else s[i]
    ensures |r| == |s| + 1 ==> r[|s|] == y
  {
    var i := IndexOf(s, key, key(y));
    if i >= 0 then s[i := y] else s + [y]
  }

  /** `Math.max(...s.map(key))`, defined for a non-empty list. */
  function MaxKey<T>(s: seq<T>, key: T -> int): (m: int)
    requires |s| > 0
    ensures forall i :: 0 <= i < |s| ==> key(s[i]) <= m
    ensures exists i :: 0 <= i < |s| && key(s[i]) == m
  {
    if |s| == 1 then key(s[0])
    else
      var m := MaxKey(s[1..], key);
      assert forall i :: 1 <= i < |s| ==> s[i] == s[1..][i - 1];
      if key(s[0]) > m then key(s[0]) else m
  }

  /** The id allocator `s.length > 0 ? Math.max(...ids) + 1 : 1`. */
  function NextId<T>(s: seq<T>, key: T -> int): (n: int)
    ensures forall i :: 0 <= i < |s| ==> key(s[i]) < n
    ensures |s| == 0 ==> n == 1
    ensures |s| > 0 ==> exists i :: 0 <= i < |s| && key(s[i]) == n - 1
  {
    if |s| > 0 then MaxKey(s, key) + 1 else 1
  }

  // ---------------------------------------------------------------------
  // Lemmas: what each list operation does to keys, order and uniqueness.
  // ---------------------------------------------------------------------

  /** Appending a record whose key is absent keeps keys distinct, and the prefix is unchanged. */
  lemma AppendFreshKeepsDistinct<T, K>(s: seq<T>, key: T -> K, y: T)
    requires DistinctKeys(s, key)
    requires !AnyWithKey(s, key, key(y))
    ensures DistinctKeys(s + [y], key)
    ensures (s + [y])[..|s|] == s
  {
  }

  /** Appending keeps every key already present. */
  lemma AppendKeepsKeys<T, K>(s: seq<T>, key: T -> K, y: T, k: K)
    ensures AnyWithKey(s, key, k) ==> AnyWithKey(s + [y], key, k)
    ensures AnyWithKey(s + [y], key, k) <==> AnyWithKey(s, key, k) || key(y) == k
  {
    if AnyWithKey(s, key, k) {
      var i :| 0 <= i < |s| && key(s[i]) == k;
      assert key((s + [y])[i]) == k;
    }
    if key(y) == k {
      assert key((s + [y])[|s|]) == k;
    }
  }

  /** An edit whose replacement carries the matched key leaves every index's key as it was. */
  lemma ReplaceKeepsKeys<T, K>(s: seq<T>, key: T -> K, k: K, y: T)
    requires key(y) == k
    ensures forall i :: 0 <= i < |s| ==> key(ReplaceByKey(s, key, k, y)[i]) == key(s[i])
    ensures DistinctKeys(s, key) ==> DistinctKeys(ReplaceByKey(s, key, k, y), key)
    ensures forall k' :: AnyWithKey(ReplaceByKey(s, key, k, y), key, k') <==> AnyWithKey(s, key, k')
  {
  }

  /** An edit whose key matches no record changes nothing. */
  lemma ReplaceMissingIsIdentity<T, K>(s: seq<T>, key: T -> K, k: K, y: T)
    requires !AnyWithKey(s, key, k)
    ensures ReplaceByKey(s, key, k, y) == s
  {
  }

  /** The records a delete keeps are the others, in their original order. */
  lemma {:induction false} RemoveKeepsOrder<T, K>(s: seq<T>, key: T -> K, k: K)
    ensures IsSubsequence(RemoveByKey(s, key, k), s)
  {
    if s != [] {
      var rest := RemoveByKey(s[1..], key, k);
      RemoveKeepsOrder(s[1..], key, k);
      if key(s[0]) == k {
        if rest != [] {
          assert key(rest[0]) != k;
          assert rest[0] != s[0];
        }
        assert RemoveByKey(s, key, k) == rest;
      } else {
        var r := RemoveByKey(s, key, k);
        assert r == [s[0]] + rest;
        assert r[0] == s[0] && r[1..] == rest;
      }
    }
  }

  /** A delete keeps every record with another key, as many times as it occurred. */
  lemma {:induction false} RemoveKeepsOthers<T, K>(s: seq<T>, key: T -> K, k: K)
    ensures forall x :: x in s && key(x) != k ==> multiset(RemoveByKey(s, key, k))[x] == multiset(s)[x]
  {
    if s != [] {
      var rest := RemoveByKey(s[1..], key, k);
      RemoveKeepsOthers(s[1..], key, k);
      assert s == [s[0]] + s[1..];
      assert multiset(s) == multiset{s[0]} + multiset(s[1..]);
      forall x | x in s && key(x) != k
        ensures multiset(RemoveByKey(s, key, k))[x] == multiset(s)[x]
      {
        if x !in s[1..] {
          assert x !in rest;
        }
        if key(s[0]) != k {
          assert multiset(RemoveByKey(s, key, k)) == multiset{s[0]} + multiset(rest);
        }
      }
    }
  }

  /** A delete whose key matches no record changes nothing. */
  lemma {:induction false} RemoveMissingIsIdentity<T, K>(s: seq<T>, key: T -> K, k: K)
    requires !AnyWithKey(s, key, k)
    ensures RemoveByKey(s, key, k) == s
  {
    if s != [] {
      assert key(s[0]) != k;
      RemoveMissingIsIdentity(s[1..], key, k);
      assert s == [s[0]] + s[1..];
    }
  }

  /** A delete keeps keys distinct. */
  lemma {:induction false} RemoveKeepsDistinct<T, K>(s: seq<T>, key: T -> K, k: K)
    requires DistinctKeys(s, key)
    ensures DistinctKeys(RemoveByKey(s, key, k), key)
  {
    if s != [] {
      var rest := RemoveByKey(s[1..], key, k);
      assert DistinctKeys(s[1..], key) by {
        forall i, j | 0 <= i < j < |s[1..]| ensures key(s[1..][i]) != key(s[1..][j]) {
          assert s[1..][i] == s[i + 1] && s[1..][j] == s[j + 1];
        }
      }
      RemoveKeepsDistinct(s[1..], key, k);
      if key(s[0]) != k {
        var r := [s[0]] + rest;
        assert r == RemoveByKey(s, key, k);
        forall i | 0 <= i < |rest| ensures key(rest[i]) != key(s[0]) {
          var j :| 0 <= j < |s[1..]| && s[1..][j] == rest[i];
          assert s[j + 1] == rest[i];
        }
        forall i, j | 0 <= i < j < |r| ensures key(r[i]) != key(r[j]) {
          assert r[j] == rest[j - 1];
          if i > 0 { assert r[i] == rest[i - 1]; }
        }
      }
    }
  }

  /** A delete of key `k` leaves the presence of every other key as it was. */
  lemma RemoveKeepsOtherKeys<T, K>(s: seq<T>, key: T -> K, k: K, k': K)
    requires k' != k
    ensures AnyWithKey(RemoveByKey(s, key, k), key, k') <==> AnyWithKey(s, key, k')
  {
  }

  /** After a delete no record holds the deleted key. */
  lemma RemoveDropsKey<T, K>(s: seq<T>, key: T -> K, k: K)
    ensures !AnyWithKey(RemoveByKey(s, key, k), key, k)
  {
  }

  /** An upsert keeps keys distinct: it never adds a second record for a key. */
  lemma UpsertKeepsDistinct<T, K>(s: seq<T>, key: T -> K, y: T)
    requires DistinctKeys(s, key)
    ensures DistinctKeys(UpsertByKey(s, key, y), key)
    ensures AnyWithKey(UpsertByKey(s, key, y), key, key(y))
  {
  }

  /** An upsert leaves the presence of every key other than `y`'s as it was. */
  lemma UpsertKeepsOtherKeys<T, K>(s: seq<T>, key: T -> K, y: T, k: K)
    requires k != key(y)
    ensures AnyWithKey(UpsertByKey(s, key, y), key, k) <==> AnyWithKey(s, key, k)
  {
  }

  /** Saving twice for the same key is the same as saving the second record once. */
  lemma UpsertOverwrites<T, K>(s: seq<T>, key: T -> K, y: T, z: T)
    requires key(y) == key(z)
    ensures UpsertByKey(UpsertByKey(s, key, y), key, z) == UpsertByKey(s, key, z)
  {
  }

  /** The allocated id is held by no record. */
  lemma NextIdIsFresh<T>(s: seq<T>, key: T -> int)
    ensures !AnyWithKey(s, key, NextId(s, key))
  {
  }
}
