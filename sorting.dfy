/** Ordering of query results: `.sort({field: 1})`, `.sort({field: -1})` and
    `$limit`, over sequences ordered by an integer key. */
module Sorting {

  ghost predicate Ascending<T>(s: seq<T>, key: T -> int) {
    forall i, j :: 0 <= i < j < |s| ==> key(s[i]) <= key(s[j])
  }

  ghost predicate Descending<T>(s: seq<T>, key: T -> int) {
    forall i, j :: 0 <= i < j < |s| ==> key(s[i]) >= key(s[j])
  }

  /** Sum of `val` over the elements of `s`. */
  function SumOf<T>(s: seq<T>, val: T -> int): int {
    if |s| == 0 then 0 else val(s[0]) + SumOf(s[1..], val)
  }

  function Insert<T>(x: T, s: seq<T>, key: T -> int): seq<T> {
    if |s| == 0 then [x]
    else if key(x) <= key(s[0]) then [x] + s
    else [s[0]] + Insert(x, s[1..], key)
  }

  /** Insertion sort by ascending key; equal keys keep no particular order. */
  function SortAsc<T>(s: seq<T>, key: T -> int): seq<T> {
    if |s| == 0 then [] else Insert(s[0], SortAsc(s[1..], key), key)
  }

  function Negated<T>(key: T -> int): T -> int {
    x => -key(x)
  }

  /** Sorting by descending key, as `.sort({field: -1})` does. */
  function SortDesc<T>(s: seq<T>, key: T -> int): seq<T> {
    SortAsc(s, Negated(key))
  }

  /** `$limit: n`. */
  function Take<T>(s: seq<T>, n: nat): (r: seq<T>)
    ensures |r| <= n && |r| <= |s|
    ensures r == s[..|r|]
    ensures |s| <= n ==> r == s
    ensures |s| > n ==> |r| == n
  {
    if |s| <= n then s else s[..n]
  }

  lemma {:induction false} InsertPerm<T>(x: T, s: seq<T>, key: T -> int)
    ensures multiset(Insert(x, s, key)) == multiset(s) + multiset{x}
    ensures |Insert(x, s, key)| == |s| + 1
    decreases |s|
  {
    if |s| > 0 {
      assert s == [s[0]] + s[1..];
      if key(x) > key(s[0]) {
        InsertPerm(x, s[1..], key);
      }
    }
  }

  lemma TailAscending<T>(s: seq<T>, key: T -> int)
    requires |s| > 0 && Ascending(s, key)
    ensures Ascending(s[1..], key)
    ensures forall k :: 0 <= k < |s| - 1 ==> key(s[0]) <= key(s[1..][k])
  {
    var tail := s[1..];
    forall i, j | 0 <= i < j < |tail| ensures key(tail[i]) <= key(tail[j]) {
      assert tail[i] == s[i + 1] && tail[j] == s[j + 1];
    }
    forall k | 0 <= k < |tail| ensures key(s[0]) <= key(tail[k]) {
      assert tail[k] == s[k + 1];
    }
  }

  /** Every element of a sequence carries a key at least `lo`. */
  ghost predicate AllAtLeast<T>(s: seq<T>, key: T -> int, lo: int) {
    forall k :: 0 <= k < |s| ==> lo <= key(s[k])
  }

  lemma ConsAscending<T>(y: T, t: seq<T>, key: T -> int)
    requires Ascending(t, key) && AllAtLeast(t, key, key(y))
    ensures Ascending([y] + t, key)
  {
    var r := [y] + t;
    forall i, j | 0 <= i < j < |r| ensures key(r[i]) <= key(r[j]) {
      assert r[j] == t[j - 1];
      if i > 0 { assert r[i] == t[i - 1]; }
    }
  }

  lemma {:induction false} InsertBound<T>(x: T, s: seq<T>, key: T -> int, lo: int)
    requires AllAtLeast(s, key, lo) && lo <= key(x)
    ensures AllAtLeast(Insert(x, s, key), key, lo)
    decreases |s|
  {
    if |s| > 0 && key(x) > key(s[0]) {
      var tail := s[1..];
      assert AllAtLeast(tail, key, lo) by {
        forall k | 0 <= k < |tail| ensures lo <= key(tail[k]) { assert tail[k] == s[k + 1]; }
      }
      InsertBound(x, tail, key, lo);
      var t := Insert(x, tail, key);
      forall k | 0 <= k < |t| + 1 ensures lo <= key(([s[0]] + t)[k]) {
        if k > 0 { assert ([s[0]] + t)[k] == t[k - 1]; }
      }
    }
  }

  lemma {:induction false} InsertSorted<T>(x: T, s: seq<T>, key: T -> int)
    requires Ascending(s, key)
    ensures Ascending(Insert(x, s, key), key)
    decreases |s|
  {
    if |s| == 0 {
    } else if key(x) <= key(s[0]) {
      TailAscending(s, key);
      assert AllAtLeast(s, key, key(x)) by {
        forall k | 0 <= k < |s| ensures key(x) <= key(s[k]) {
          if k > 0 { assert s[k] == s[1..][k - 1]; }
        }
      }
      ConsAscending(x, s, key);
    } else {
      TailAscending(s, key);
      InsertSorted(x, s[1..], key);
      InsertBound(x, s[1..], key, key(s[0]));
      ConsAscending(s[0], Insert(x, s[1..], key), key);
    }
  }

  lemma {:induction false} SortAscPerm<T>(s: seq<T>, key: T -> int)
    ensures multiset(SortAsc(s, key)) == multiset(s)
    ensures |SortAsc(s, key)| == |s|
    decreases |s|
  {
    if |s| > 0 {
      var t := SortAsc(s[1..], key);
      SortAscPerm(s[1..], key);
      InsertPerm(s[0], t, key);
      assert s == [s[0]] + s[1..];
      assert multiset(s) == multiset{s[0]} + multiset(s[1..]);
    }
  }

  lemma {:induction false} SortAscSorted<T>(s: seq<T>, key: T -> int)
    ensures Ascending(SortAsc(s, key), key)
    decreases |s|
  {
    if |s| > 0 {
      SortAscSorted(s[1..], key);
      InsertSorted(s[0], SortAsc(s[1..], key), key);
    }
  }

  /** `.sort({field: 1})` yields a permutation of its input in ascending order. */
  lemma SortAscFacts<T>(s: seq<T>, key: T -> int)
    ensures Ascending(SortAsc(s, key), key)
    ensures multiset(SortAsc(s, key)) == multiset(s)
    ensures |SortAsc(s, key)| == |s|
  {
    SortAscPerm(s, key);
    SortAscSorted(s, key);
  }

  /** `.sort({field: -1})` yields a permutation of its input in descending order. */
  lemma SortDescFacts<T>(s: seq<T>, key: T -> int)
    ensures Descending(SortDesc(s, key), key)
    ensures multiset(SortDesc(s, key)) == multiset(s)
    ensures |SortDesc(s, key)| == |s|
  {
    var r := SortDesc(s, key);
    SortAscFacts(s, Negated(key));
    forall i, j | 0 <= i < j < |r| ensures key(r[i]) >= key(r[j]) {
      assert Negated(key)(r[i]) <= Negated(key)(r[j]);
    }
  }

  lemma {:induction false} InsertSum<T>(x: T, s: seq<T>, key: T -> int, val: T -> int)
    ensures SumOf(Insert(x, s, key), val) == val(x) + SumOf(s, val)
    decreases |s|
  {
    if |s| == 0 {
    } else if key(x) <= key(s[0]) {
      var r := [x] + s;
      assert r[1..] == s;
    } else {
      InsertSum(x, s[1..], key, val);
      var r := [s[0]] + Insert(x, s[1..], key);
      assert r[1..] == Insert(x, s[1..], key);
    }
  }

  /** Sorting does not change a sum over the rows. */
  lemma {:induction false} SortAscSum<T>(s: seq<T>, key: T -> int, val: T -> int)
    ensures SumOf(SortAsc(s, key), val) == SumOf(s, val)
    decreases |s|
  {
    if |s| > 0 {
      SortAscSum(s[1..], key, val);
      InsertSum(s[0], SortAsc(s[1..], key), key, val);
    }
  }

  /** With non-negative values, a prefix sums to at most the whole. */
  lemma {:induction false} PrefixSum<T>(s: seq<T>, n: nat, val: T -> int)
    requires n <= |s|
    requires forall i :: 0 <= i < |s| ==> val(s[i]) >= 0
    ensures SumOf(s[..n], val) <= SumOf(s, val)
    decreases |s|
  {
    if n == 0 {
      NonNegSum(s, val);
    } else {
      assert s[..n][1..] == s[1..][..n - 1];
      PrefixSum(s[1..], n - 1, val);
    }
  }

  lemma {:induction false} NonNegSum<T>(s: seq<T>, val: T -> int)
    requires forall i :: 0 <= i < |s| ==> val(s[i]) >= 0
    ensures SumOf(s, val) >= 0
    decreases |s|
  {
    if |s| > 0 { NonNegSum(s[1..], val); }
  }

  /** After `.sort(-1)` and `$limit`, every row that was cut off ranks no
      higher than every row that was kept. */
  lemma TopKCut<T>(s: seq<T>, key: T -> int, n: nat)
    ensures var sorted := SortDesc(s, key);
            var kept := Take(sorted, n);
            forall i, j :: 0 <= i < |kept| <= j < |sorted| ==> key(kept[i]) >= key(sorted[j])
  {
    SortDescFacts(s, key);
  }
}
