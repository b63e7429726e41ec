/** `Model.find(filter).sort({key: -1})` over a collection held as a sequence. */
module Queries {
  import opened Common
  import opened Sorting

  /** The documents satisfying `p`, newest (greatest `key`) first. */
  function FindSortedDesc<T>(s: seq<T>, p: T -> bool, key: T -> int): (r: seq<T>)
    ensures multiset(r) == multiset(Filter(s, p))
    ensures Descending(r, key)
    ensures |r| <= |s|
    ensures forall i :: 0 <= i < |r| ==> p(r[i]) && r[i] in s
    ensures forall i :: 0 <= i < |s| && p(s[i]) ==> s[i] in r
  {
    var found := Filter(s, p);
    SortDescFacts(found, key);
    var r := SortDesc(found, key);
    assert forall i :: 0 <= i < |r| ==> r[i] in multiset(found);
    assert forall i :: 0 <= i < |found| ==> found[i] in multiset(r);
    r
  }
}
