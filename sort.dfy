/**
 * The cross-tile sort of a layer's bucket parts: ascending by sort key,
 * ties kept in discovery order (a stable sort, as the array sort the
 * scheduler calls is).
 */
module BucketSort {
  import opened PlacementEngine

  predicate SortedByKey(s: seq<BucketPart>) {
    forall i, j :: 0 <= i < j < |s| ==> s[i].sortKey <= s[j].sortKey
  }

  /** The parts of `s` whose sort key is `k`, in the order of `s`. */
  function WithKey(s: seq<BucketPart>, k: int): seq<BucketPart> {
    if s == [] then [] else (if s[0].sortKey == k then [s[0]] else []) + WithKey(s[1..], k)
  }

  /** Inserts `p` in front of the first part whose key is not below its own. */
  function Insert(p: BucketPart, s: seq<BucketPart>): seq<BucketPart> {
    if s == [] || p.sortKey <= s[0].sortKey then [p] + s else [s[0]] + Insert(p, s[1..])
  }

  function SortByKey(s: seq<BucketPart>): seq<BucketPart> {
    if s == [] then [] else Insert(s[0], SortByKey(s[1..]))
  }

  lemma {:induction false} InsertPermutes(p: BucketPart, s: seq<BucketPart>)
    ensures multiset(Insert(p, s)) == multiset(s) + multiset{p}
  {
    if s == [] || p.sortKey <= s[0].sortKey {
    } else {
      InsertPermutes(p, s[1..]);
      assert s == [s[0]] + s[1..];
    }
  }

  lemma {:induction false} InsertSorted(p: BucketPart, s: seq<BucketPart>)
    requires SortedByKey(s)
    ensures SortedByKey(Insert(p, s))
  {
    if s == [] || p.sortKey <= s[0].sortKey {
    } else {
      var t := Insert(p, s[1..]);
      InsertSorted(p, s[1..]);
      InsertPermutes(p, s[1..]);
      forall k | 0 <= k < |t| ensures s[0].sortKey <= t[k].sortKey {
        assert t[k] in multiset(t);
        assert t[k] == p || t[k] in s[1..];
      }
    }
  }

  lemma WithKeyCons(x: BucketPart, t: seq<BucketPart>, k: int)
    ensures WithKey([x] + t, k) == (if x.sortKey == k then [x] else []) + WithKey(t, k)
  {
    assert ([x] + t)[1..] == t;
  }

  lemma {:induction false} InsertWithKey(p: BucketPart, s: seq<BucketPart>, k: int)
    ensures WithKey(Insert(p, s), k) == (if p.sortKey == k then [p] else []) + WithKey(s, k)
  {
    if s == [] || p.sortKey <= s[0].sortKey {
      WithKeyCons(p, s, k);
    } else {
      var t := Insert(p, s[1..]);
      InsertWithKey(p, s[1..], k);
      WithKeyCons(s[0], t, k);
      WithKeyCons(s[0], s[1..], k);
      assert s == [s[0]] + s[1..];
    }
  }

  /** The sort yields its input in ascending key order. */
  lemma {:induction false} SortByKeySorted(s: seq<BucketPart>)
    ensures SortedByKey(SortByKey(s))
  {
    if s != [] {
      SortByKeySorted(s[1..]);
      InsertSorted(s[0], SortByKey(s[1..]));
    }
  }

  /** The sort neither loses nor duplicates a part. */
  lemma {:induction false} SortByKeyPermutes(s: seq<BucketPart>)
    ensures multiset(SortByKey(s)) == multiset(s)
    ensures |SortByKey(s)| == |s|
  {
    if s != [] {
      SortByKeyPermutes(s[1..]);
      InsertPermutes(s[0], SortByKey(s[1..]));
      assert s == [s[0]] + s[1..];
    }
    assert |multiset(SortByKey(s))| == |SortByKey(s)|;
  }

  /** The sort is stable: parts with equal keys keep their discovery order. */
  lemma {:induction false} SortByKeyStable(s: seq<BucketPart>, k: int)
    ensures WithKey(SortByKey(s), k) == WithKey(s, k)
  {
    if s != [] {
      SortByKeyStable(s[1..], k);
      InsertWithKey(s[0], SortByKey(s[1..]), k);
    }
  }
}
