/** `$group` stages: the distinct `_id` values of a stream of documents and
    the per-key `$sum` accumulators, with the facts the reports rely on. */
module Grouping {

  ghost predicate Distinct<T>(s: seq<T>) {
    forall i, j :: 0 <= i < j < |s| ==> s[i] != s[j]
  }

  /** The distinct group keys of `s`, one per key, each occurring in `s`. */
  function DistinctKeys<T, K(==)>(s: seq<T>, key: T -> K): (ks: seq<K>)
    ensures Distinct(ks)
    ensures forall i :: 0 <= i < |s| ==> key(s[i]) in ks
    ensures forall j :: 0 <= j < |ks| ==> exists i :: 0 <= i < |s| && key(s[i]) == ks[j]
  {
    if |s| == 0 then []
    else
      var rest := DistinctKeys(s[1..], key);
      assert forall i :: 1 <= i < |s| ==> s[i] == s[1..][i - 1];
      if key(s[0]) in rest then rest else [key(s[0])] + rest
  }

  /** `{$sum: 1}` over the documents whose key is `k`. */
  function CountKey<T, K(==)>(s: seq<T>, key: T -> K, k: K): nat {
    if |s| == 0 then 0 else (if key(s[0]) == k then 1 else 0) + CountKey(s[1..], key, k)
  }

  /** `{$sum: val}` over the documents whose key is `k`. */
  function SumKey<T, K(==)>(s: seq<T>, key: T -> K, k: K, val: T -> int): int {
    if |s| == 0 then 0 else (if key(s[0]) == k then val(s[0]) else 0) + SumKey(s[1..], key, k, val)
  }

  /** A document counts towards its own key's group. */
  lemma {:induction false} CountKeyPositive<T, K>(s: seq<T>, key: T -> K, k: K)
    requires exists i :: 0 <= i < |s| && key(s[i]) == k
    ensures CountKey(s, key, k) >= 1
    decreases |s|
  {
    var i :| 0 <= i < |s| && key(s[i]) == k;
    if i > 0 {
      assert s[1..][i - 1] == s[i];
      CountKeyPositive(s[1..], key, k);
    }
  }

  /** A group cannot count more documents than the stream holds. */
  lemma {:induction false} CountKeyAtMost<T, K>(s: seq<T>, key: T -> K, k: K)
    ensures CountKey(s, key, k) <= |s|
    decreases |s|
  {
    if |s| > 0 { CountKeyAtMost(s[1..], key, k); }
  }

  /** Appending a document adds it to its own group's count only. */
  lemma {:induction false} CountKeyAppend<T, K>(s: seq<T>, e: T, key: T -> K, k: K)
    ensures CountKey(s + [e], key, k) == CountKey(s, key, k) + (if key(e) == k then 1 else 0)
    decreases |s|
  {
    if |s| > 0 {
      assert (s + [e])[1..] == s[1..] + [e];
      CountKeyAppend(s[1..], e, key, k);
    }
  }

  /** Appending a document adds its value to its own group's sum only. */
  lemma {:induction false} SumKeyAppend<T, K>(s: seq<T>, e: T, key: T -> K, k: K, val: T -> int)
    ensures SumKey(s + [e], key, k, val) == SumKey(s, key, k, val) + (if key(e) == k then val(e) else 0)
    decreases |s|
  {
    if |s| > 0 {
      assert (s + [e])[1..] == s[1..] + [e];
      SumKeyAppend(s[1..], e, key, k, val);
    }
  }

  /** How many times `x` occurs in `ks`. */
  function Occurrences<K(==)>(ks: seq<K>, x: K): nat {
    if |ks| == 0 then 0 else (if ks[0] == x then 1 else 0) + Occurrences(ks[1..], x)
  }

  lemma {:induction false} OccursOnce<K>(ks: seq<K>, x: K)
    requires Distinct(ks) && x in ks
    ensures Occurrences(ks, x) == 1
    decreases |ks|
  {
    var tail := ks[1..];
    assert Distinct(tail) by {
      forall i, j | 0 <= i < j < |tail| ensures tail[i] != tail[j] {
        assert tail[i] == ks[i + 1] && tail[j] == ks[j + 1];
      }
    }
    if ks[0] == x {
      NotOccurring(tail, x);
    } else {
      assert x in tail;
      OccursOnce(tail, x);
    }
  }

  lemma {:induction false} NotOccurring<K>(ks: seq<K>, x: K)
    requires x !in ks
    ensures Occurrences(ks, x) == 0
    decreases |ks|
  {
    if |ks| > 0 {
      assert forall j :: 0 <= j < |ks| - 1 ==> ks[1..][j] == ks[j + 1];
      NotOccurring(ks[1..], x);
    }
  }

  /** The group counts of the keys `ks`, added up. */
  function CountsOver<T, K(==)>(s: seq<T>, key: T -> K, ks: seq<K>): nat {
    if |ks| == 0 then 0 else CountKey(s, key, ks[0]) + CountsOver(s, key, ks[1..])
  }

  lemma {:induction false} CountsOverCons<T, K>(e: T, s: seq<T>, key: T -> K, ks: seq<K>)
    ensures CountsOver([e] + s, key, ks) == CountsOver(s, key, ks) + Occurrences(ks, key(e))
    decreases |ks|
  {
    if |ks| > 0 {
      assert ([e] + s)[1..] == s;
      CountsOverCons(e, s, key, ks[1..]);
    }
  }

  /** Summed over a set of distinct keys that covers every document, the
      group counts add up to the number of documents. */
  lemma {:induction false} CountsCoverAll<T, K>(s: seq<T>, key: T -> K, ks: seq<K>)
    requires Distinct(ks)
    requires forall i :: 0 <= i < |s| ==> key(s[i]) in ks
    ensures CountsOver(s, key, ks) == |s|
    decreases |s|
  {
    if |s| == 0 {
      CountsOverEmpty(s, key, ks);
    } else {
      var tail := s[1..];
      assert forall i :: 0 <= i < |tail| ==> tail[i] == s[i + 1];
      CountsCoverAll(tail, key, ks);
      assert s == [s[0]] + tail;
      CountsOverCons(s[0], tail, key, ks);
      OccursOnce(ks, key(s[0]));
    }
  }

  lemma {:induction false} CountsOverEmpty<T, K>(s: seq<T>, key: T -> K, ks: seq<K>)
    requires |s| == 0
    ensures CountsOver(s, key, ks) == 0
    decreases |ks|
  {
    if |ks| > 0 { CountsOverEmpty(s, key, ks[1..]); }
  }

  /** A sequence has no repeated element exactly when no multiplicity exceeds one. */
  lemma {:induction false} DistinctMultiplicity<T>(s: seq<T>)
    ensures Distinct(s) <==> forall x :: multiset(s)[x] <= 1
    decreases |s|
  {
    if |s| > 0 {
      var tail := s[1..];
      assert s == [s[0]] + tail;
      DistinctMultiplicity(tail);
      if Distinct(s) {
        assert Distinct(tail) by {
          forall i, j | 0 <= i < j < |tail| ensures tail[i] != tail[j] {
            assert tail[i] == s[i + 1] && tail[j] == s[j + 1];
          }
        }
        assert s[0] !in tail;
      } else {
        var i, j :| 0 <= i < j < |s| && s[i] == s[j];
        if i == 0 {
          assert tail[j - 1] == s[0];
          assert multiset(s)[s[0]] == multiset(tail)[s[0]] + 1;
        } else {
          assert tail[i - 1] == tail[j - 1];
          assert !Distinct(tail);
          var x :| multiset(tail)[x] > 1;
          assert multiset(s)[x] >= multiset(tail)[x];
        }
      }
    }
  }

  /** Reordering rows that are pairwise different keeps them pairwise different. */
  lemma PermutationDistinct<T>(a: seq<T>, b: seq<T>)
    requires multiset(a) == multiset(b) && Distinct(a)
    ensures Distinct(b)
  {
    DistinctMultiplicity(a);
    DistinctMultiplicity(b);
  }
}
