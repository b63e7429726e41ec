/** Aggregation pipelines: `$group` by a key with several `$sum`
    accumulators, followed by `$sort` and `$limit`, and the facts that
    survive each stage. */
module Aggregation {
  import opened Sorting
  import opened Grouping

  /** One output document of a `$group` stage: its `_id` and the value of
      each `$sum` accumulator, in the order the accumulators are listed. */
  datatype Tally<K> = Tally(key: K, sums: seq<int>)

  /** The accumulators of the group with key `k`. */
  function Sums<T, K(==)>(s: seq<T>, key: T -> K, vals: seq<T -> int>, k: K): (r: seq<int>)
    ensures |r| == |vals| && forall m :: 0 <= m < |vals| ==> r[m] == SumKey(s, key, k, vals[m])
  {
    seq(|vals|, m requires 0 <= m < |vals| => SumKey(s, key, k, vals[m]))
  }

  function TallyOf<T, K(==)>(s: seq<T>, key: T -> K, vals: seq<T -> int>, k: K): Tally<K> {
    Tally(k, Sums(s, key, vals, k))
  }

  function Tallies<T, K(==)>(s: seq<T>, key: T -> K, vals: seq<T -> int>, ks: seq<K>): (r: seq<Tally<K>>)
    ensures |r| == |ks| && forall i :: 0 <= i < |ks| ==> r[i] == TallyOf(s, key, vals, ks[i])
  {
    if |ks| == 0 then [] else [TallyOf(s, key, vals, ks[0])] + Tallies(s, key, vals, ks[1..])
  }

  /** The accumulator `m` of a group document. */
  function Column<K>(m: nat): Tally<K> -> int {
    (t: Tally<K>) => if m < |t.sums| then t.sums[m] else 0
  }

  /** The `$group` key `k` is the key of some document. */
  ghost predicate KeyOccurs<T, K>(s: seq<T>, key: T -> K, k: K) {
    exists i :: 0 <= i < |s| && key(s[i]) == k
  }

  /** Every row is the group document of a key that occurs in `s`. */
  ghost predicate Genuine<T, K>(s: seq<T>, key: T -> K, vals: seq<T -> int>, r: seq<Tally<K>>) {
    forall t :: t in r ==> t == TallyOf(s, key, vals, t.key) && KeyOccurs(s, key, t.key)
  }

  /** No key has two rows. */
  ghost predicate KeysDistinct<K>(r: seq<Tally<K>>) {
    forall i, j :: 0 <= i < j < |r| ==> r[i].key != r[j].key
  }

  /** Some row has key `k`. */
  ghost predicate KeyListed<K>(r: seq<Tally<K>>, k: K) {
    exists j :: 0 <= j < |r| && r[j].key == k
  }

  /** Every document's key has a row. */
  ghost predicate Covers<T, K>(s: seq<T>, key: T -> K, r: seq<Tally<K>>) {
    forall i :: 0 <= i < |s| ==> KeyListed(r, key(s[i]))
  }

  /** `$group`: one document per distinct key, in order of first appearance. */
  function GroupBy<T, K(==)>(s: seq<T>, key: T -> K, vals: seq<T -> int>): (r: seq<Tally<K>>)
    ensures Genuine(s, key, vals, r) && KeysDistinct(r) && Covers(s, key, r)
  {
    var ks := DistinctKeys(s, key);
    var r := Tallies(s, key, vals, ks);
    forall i, j | 0 <= i < j < |r| ensures r[i].key != r[j].key {
      assert r[i].key == ks[i] && r[j].key == ks[j];
    }
    forall t | t in r ensures t == TallyOf(s, key, vals, t.key) && KeyOccurs(s, key, t.key) {
      var j :| 0 <= j < |r| && r[j] == t;
      assert t.key == ks[j];
      var i :| 0 <= i < |s| && key(s[i]) == ks[j];
    }
    forall i | 0 <= i < |s| ensures KeyListed(r, key(s[i])) {
      var j :| 0 <= j < |ks| && ks[j] == key(s[i]);
      assert r[j].key == key(s[i]);
    }
    r
  }

  lemma SameMembers<X>(q: seq<X>, r: seq<X>)
    requires multiset(q) == multiset(r)
    ensures forall x :: x in q <==> x in r
  {
    forall x ensures x in q <==> x in r {
      assert x in q <==> x in multiset(q);
      assert x in r <==> x in multiset(r);
    }
  }

  /** Reordering group documents keeps their keys distinct. */
  lemma PermutedKeysDistinct<T, K>(s: seq<T>, key: T -> K, vals: seq<T -> int>, r: seq<Tally<K>>, q: seq<Tally<K>>)
    requires Genuine(s, key, vals, r) && KeysDistinct(r) && multiset(q) == multiset(r)
    ensures Genuine(s, key, vals, q) && KeysDistinct(q)
  {
    SameMembers(q, r);
    assert Distinct(r) by {
      forall i, j | 0 <= i < j < |r| ensures r[i] != r[j] {
        assert r[i].key != r[j].key;
      }
    }
    PermutationDistinct(r, q);
    forall i, j | 0 <= i < j < |q| ensures q[i].key != q[j].key {
      assert q[i] != q[j];
      assert q[i] in r && q[j] in r;
    }
  }

  /** Reordering group documents keeps every key listed. */
  lemma PermutedCovers<T, K>(s: seq<T>, key: T -> K, r: seq<Tally<K>>, q: seq<Tally<K>>)
    requires Covers(s, key, r) && multiset(q) == multiset(r)
    ensures Covers(s, key, q)
  {
    SameMembers(q, r);
    forall i | 0 <= i < |s| ensures KeyListed(q, key(s[i])) {
      var j :| 0 <= j < |r| && r[j].key == key(s[i]);
      assert r[j] in q;
      var n :| 0 <= n < |q| && q[n] == r[j];
    }
  }

  /** `$limit` keeps group documents group documents. */
  lemma PrefixGroupRows<T, K>(s: seq<T>, key: T -> K, vals: seq<T -> int>, r: seq<Tally<K>>, n: nat)
    requires Genuine(s, key, vals, r) && KeysDistinct(r) && n <= |r|
    ensures Genuine(s, key, vals, r[..n]) && KeysDistinct(r[..n])
  {
    var p := r[..n];
    assert forall i :: 0 <= i < |p| ==> p[i] == r[i];
    forall t | t in p ensures t in r {
      var i :| 0 <= i < |p| && p[i] == t;
    }
  }

  // -----------------------------------------------------------------------
  // Column totals

  /** The group sums of `val` for the keys `ks`, added up. */
  function SumsOver<T, K(==)>(s: seq<T>, key: T -> K, ks: seq<K>, val: T -> int): int {
    if |ks| == 0 then 0 else SumKey(s, key, ks[0], val) + SumsOver(s, key, ks[1..], val)
  }

  lemma DistinctTail<K>(ks: seq<K>)
    requires |ks| > 0 && Distinct(ks)
    ensures Distinct(ks[1..]) && ks[0] !in ks[1..]
  {
    var tail := ks[1..];
    forall i, j | 0 <= i < j < |tail| ensures tail[i] != tail[j] {
      assert tail[i] == ks[i + 1] && tail[j] == ks[j + 1];
    }
    forall i | 0 <= i < |tail| ensures tail[i] != ks[0] {
      assert tail[i] == ks[i + 1];
    }
  }

  lemma {:induction false} SumsOverCons<T, K>(e: T, s: seq<T>, key: T -> K, ks: seq<K>, val: T -> int)
    requires Distinct(ks)
    ensures SumsOver([e] + s, key, ks, val) == SumsOver(s, key, ks, val) + (if key(e) in ks then val(e) else 0)
    decreases |ks|
  {
    if |ks| > 0 {
      DistinctTail(ks);
      assert ([e] + s)[1..] == s;
      SumsOverCons(e, s, key, ks[1..], val);
      assert key(e) in ks <==> key(e) == ks[0] || key(e) in ks[1..];
    }
  }

  lemma {:induction false} SumsOverEmpty<T, K>(s: seq<T>, key: T -> K, ks: seq<K>, val: T -> int)
    requires |s| == 0
    ensures SumsOver(s, key, ks, val) == 0
    decreases |ks|
  {
    if |ks| > 0 { SumsOverEmpty(s, key, ks[1..], val); }
  }

  /** Over distinct keys covering every document, the group sums add up to
      the sum over all documents. */
  lemma {:induction false} SumsCoverAll<T, K>(s: seq<T>, key: T -> K, ks: seq<K>, val: T -> int)
    requires Distinct(ks)
    requires forall i :: 0 <= i < |s| ==> key(s[i]) in ks
    ensures SumsOver(s, key, ks, val) == SumOf(s, val)
    decreases |s|
  {
    if |s| == 0 {
      SumsOverEmpty(s, key, ks, val);
    } else {
      var tail := s[1..];
      assert forall i :: 0 <= i < |tail| ==> tail[i] == s[i + 1];
      SumsCoverAll(tail, key, ks, val);
      assert s == [s[0]] + tail;
      SumsOverCons(s[0], tail, key, ks, val);
    }
  }

  lemma {:induction false} TalliesColumn<T, K>(s: seq<T>, key: T -> K, vals: seq<T -> int>, ks: seq<K>, m: nat)
    requires m < |vals|
    ensures SumOf(Tallies(s, key, vals, ks), Column(m)) == SumsOver(s, key, ks, vals[m])
    decreases |ks|
  {
    if |ks| > 0 {
      var r := Tallies(s, key, vals, ks);
      assert r[1..] == Tallies(s, key, vals, ks[1..]);
      TalliesColumn(s, key, vals, ks[1..], m);
    }
  }

  /** A column of the `$group` output adds up to the sum of its
      accumulator over every document. */
  lemma GroupByColumn<T, K>(s: seq<T>, key: T -> K, vals: seq<T -> int>, m: nat)
    requires m < |vals|
    ensures SumOf(GroupBy(s, key, vals), Column(m)) == SumOf(s, vals[m])
  {
    var ks := DistinctKeys(s, key);
    TalliesColumn(s, key, vals, ks, m);
    SumsCoverAll(s, key, ks, vals[m]);
  }

  /** A group's accumulator is at least 1 when every document adds at least 1. */
  lemma {:induction false} GroupAtLeastOne<T, K>(s: seq<T>, key: T -> K, k: K, val: T -> int)
    requires exists i :: 0 <= i < |s| && key(s[i]) == k
    requires forall i :: 0 <= i < |s| ==> val(s[i]) >= 1
    ensures SumKey(s, key, k, val) >= 1
    decreases |s|
  {
    var i :| 0 <= i < |s| && key(s[i]) == k;
    var tail := s[1..];
    assert forall n :: 0 <= n < |tail| ==> tail[n] == s[n + 1];
    if i == 0 {
      NonNegSumKey(tail, key, k, val);
    } else {
      assert key(tail[i - 1]) == k;
      GroupAtLeastOne(tail, key, k, val);
    }
  }

  lemma {:induction false} NonNegSumKey<T, K>(s: seq<T>, key: T -> K, k: K, val: T -> int)
    requires forall i :: 0 <= i < |s| ==> val(s[i]) >= 0
    ensures SumKey(s, key, k, val) >= 0
    decreases |s|
  {
    if |s| > 0 {
      assert forall n :: 0 <= n < |s| - 1 ==> s[1..][n] == s[n + 1];
      NonNegSumKey(s[1..], key, k, val);
    }
  }

  /** Group sums respect a pointwise bound: when `a + b + c <= d` on every
      document, the same holds of each group's sums. */
  lemma {:induction false} SumKeyBound<T, K>(s: seq<T>, key: T -> K, k: K, a: T -> int, b: T -> int, c: T -> int,
                                             d: T -> int)
    requires forall i :: 0 <= i < |s| ==> a(s[i]) + b(s[i]) + c(s[i]) <= d(s[i])
    ensures SumKey(s, key, k, a) + SumKey(s, key, k, b) + SumKey(s, key, k, c) <= SumKey(s, key, k, d)
    decreases |s|
  {
    if |s| > 0 {
      assert forall n :: 0 <= n < |s| - 1 ==> s[1..][n] == s[n + 1];
      SumKeyBound(s[1..], key, k, a, b, c, d);
    }
  }

  /** What a genuine row holds: one accumulator per `$sum`, each the sum
      over the documents of its key, and a key that occurs. */
  lemma RowFacts<T, K>(s: seq<T>, key: T -> K, vals: seq<T -> int>, r: seq<Tally<K>>, j: nat)
    requires Genuine(s, key, vals, r) && j < |r|
    ensures |r[j].sums| == |vals| && KeyOccurs(s, key, r[j].key)
    ensures forall m :: 0 <= m < |vals| ==> r[j].sums[m] == SumKey(s, key, r[j].key, vals[m])
  {
    assert r[j] in r;
  }

  // -----------------------------------------------------------------------
  // `$sort` and `$limit` on a group column

  /** `$sort: {column: -1}` over the `$group` output. */
  function SortedGroups<T, K(==)>(s: seq<T>, key: T -> K, vals: seq<T -> int>, m: nat): (r: seq<Tally<K>>)
    ensures Genuine(s, key, vals, r) && KeysDistinct(r) && Covers(s, key, r)
    ensures Descending(r, Column(m))
    ensures multiset(r) == multiset(GroupBy(s, key, vals))
  {
    var g := GroupBy(s, key, vals);
    SortDescFacts(g, Column(m));
    PermutedKeysDistinct(s, key, vals, g, SortDesc(g, Column(m)));
    PermutedCovers(s, key, g, SortDesc(g, Column(m)));
    SortDesc(g, Column(m))
  }

  /** A sorted column adds up to the sum of its accumulator over every document. */
  lemma SortedGroupsColumn<T, K>(s: seq<T>, key: T -> K, vals: seq<T -> int>, m: nat, c: nat)
    requires c < |vals|
    ensures SumOf(SortedGroups(s, key, vals, m), Column(c)) == SumOf(s, vals[c])
  {
    GroupByColumn(s, key, vals, c);
    SortAscSum(GroupBy(s, key, vals), Negated(Column(m)), Column(c));
  }

  /** `$sort: {column: -1}` then `$limit: n` over the `$group` output. */
  function TopGroups<T, K(==)>(s: seq<T>, key: T -> K, vals: seq<T -> int>, m: nat, n: nat): (r: seq<Tally<K>>)
    ensures |r| <= n && |r| <= |SortedGroups(s, key, vals, m)|
    ensures Genuine(s, key, vals, r) && KeysDistinct(r)
    ensures Descending(r, Column(m))
    ensures r == SortedGroups(s, key, vals, m)[..|r|]
    ensures |r| == if n < |DistinctKeys(s, key)| then n else |DistinctKeys(s, key)|
    ensures forall x :: 0 <= x < |s| && !KeyListed(r, key(s[x])) ==> |r| == n
  {
    var sorted := SortedGroups(s, key, vals, m);
    var r := Take(sorted, n);
    PrefixGroupRows(s, key, vals, sorted, |r|);
    assert forall i :: 0 <= i < |r| ==> r[i] == sorted[i];
    assert |sorted| == |GroupBy(s, key, vals)| by {
      assert |multiset(sorted)| == |multiset(GroupBy(s, key, vals))|;
    }
    forall x | 0 <= x < |s| && !KeyListed(r, key(s[x])) ensures |r| == n {
      TakeMissesOnlyWhenFull(sorted, n, key(s[x]));
    }
    r
  }

  /** `$limit: n` drops a listed key only when it keeps `n` rows. */
  lemma TakeMissesOnlyWhenFull<K>(q: seq<Tally<K>>, n: nat, k: K)
    requires KeyListed(q, k) && !KeyListed(Take(q, n), k)
    ensures |Take(q, n)| == n
  {
    var r := Take(q, n);
    var c :| 0 <= c < |q| && q[c].key == k;
    forall j | 0 <= j < |r| ensures r[j].key != k {
      assert r[j] == q[j];
    }
    assert c >= |r|;
  }

  /** In a sequence sorted by descending `col`, a row whose key is missing
      from a prefix ranks no higher than any row of that prefix. */
  lemma CutRanksLower<K>(q: seq<Tally<K>>, r: seq<Tally<K>>, col: Tally<K> -> int, c: nat)
    requires Descending(q, col) && |r| <= |q| && r == q[..|r|]
    requires c < |q| && !KeyListed(r, q[c].key)
    ensures forall j :: 0 <= j < |r| ==> col(r[j]) >= col(q[c])
  {
    assert forall j :: 0 <= j < |r| ==> r[j] == q[j] && r[j].key != q[c].key;
    assert c >= |r|;
    forall j | 0 <= j < |r| ensures col(r[j]) >= col(q[c]) {
      assert r[j] == q[j];
    }
  }

  /** Genuine rows sorted by descending column `m`, covering `s`: a prefix
      that misses the key of a document ranks at least as high as that
      document's group. */
  lemma PrefixOutranks<T, K>(s: seq<T>, key: T -> K, vals: seq<T -> int>, q: seq<Tally<K>>, r: seq<Tally<K>>,
                             m: nat, x: nat)
    requires m < |vals| && x < |s|
    requires Genuine(s, key, vals, q) && Covers(s, key, q) && Descending(q, Column(m))
    requires |r| <= |q| && r == q[..|r|] && !KeyListed(r, key(s[x]))
    ensures forall j :: 0 <= j < |r| ==> m < |r[j].sums| && r[j].sums[m] >= SumKey(s, key, key(s[x]), vals[m])
  {
    var k := key(s[x]);
    assert KeyListed(q, k);
    var c :| 0 <= c < |q| && q[c].key == k;
    RowFacts(s, key, vals, q, c);
    CutRanksLower(q, r, Column(m), c);
    forall j | 0 <= j < |r| ensures m < |r[j].sums| && r[j].sums[m] >= SumKey(s, key, k, vals[m]) {
      assert r[j] == q[j];
      RowFacts(s, key, vals, q, j);
      assert Column(m)(r[j]) >= Column(m)(q[c]);
    }
  }

  /** The groups cut off by `$limit` rank no higher on the sorted column
      than any group kept: when a document's key has no row, its group's
      sum is at most every kept row's. */
  lemma TopGroupsCut<T, K>(s: seq<T>, key: T -> K, vals: seq<T -> int>, m: nat, n: nat, x: nat)
    requires m < |vals| && x < |s|
    requires !KeyListed(TopGroups(s, key, vals, m, n), key(s[x]))
    ensures forall j :: 0 <= j < |TopGroups(s, key, vals, m, n)| ==>
              TopGroups(s, key, vals, m, n)[j].sums[m] >= SumKey(s, key, key(s[x]), vals[m])
    ensures |TopGroups(s, key, vals, m, n)| == n
  {
    PrefixOutranks(s, key, vals, SortedGroups(s, key, vals, m), TopGroups(s, key, vals, m, n), m, x);
  }

  // -----------------------------------------------------------------------
  // Ascending order of integer keys, and the `.map` after a pipeline

  function KeyOf(t: Tally<int>): int {
    t.key
  }

  /** `$sort: {_id: 1}` over the `$group` output of integer keys: strictly ascending. */
  function GroupsByKey<T>(s: seq<T>, key: T -> int, vals: seq<T -> int>): (r: seq<Tally<int>>)
    ensures Genuine(s, key, vals, r) && KeysDistinct(r) && Covers(s, key, r)
    ensures forall i, j :: 0 <= i < j < |r| ==> r[i].key < r[j].key
    ensures multiset(r) == multiset(GroupBy(s, key, vals))
  {
    var g := GroupBy(s, key, vals);
    SortAscFacts(g, KeyOf);
    PermutedKeysDistinct(s, key, vals, g, SortAsc(g, KeyOf));
    PermutedCovers(s, key, g, SortAsc(g, KeyOf));
    StrictlyAscending(SortAsc(g, KeyOf));
    SortAsc(g, KeyOf)
  }

  /** A day-ordered column adds up to the sum of its accumulator. */
  lemma GroupsByKeyColumn<T>(s: seq<T>, key: T -> int, vals: seq<T -> int>, c: nat)
    requires c < |vals|
    ensures SumOf(GroupsByKey(s, key, vals), Column(c)) == SumOf(s, vals[c])
  {
    GroupByColumn(s, key, vals, c);
    SortAscSum(GroupBy(s, key, vals), KeyOf, Column(c));
  }

  lemma StrictlyAscending(r: seq<Tally<int>>)
    requires Ascending(r, KeyOf) && KeysDistinct(r)
    ensures forall i, j :: 0 <= i < j < |r| ==> r[i].key < r[j].key
  {
    forall i, j | 0 <= i < j < |r| ensures r[i].key < r[j].key {
      assert KeyOf(r[i]) <= KeyOf(r[j]);
    }
  }

  /** `array.map(f)`. */
  function Map<A, B>(s: seq<A>, f: A -> B): (r: seq<B>)
    ensures |r| == |s| && forall i :: 0 <= i < |s| ==> r[i] == f(s[i])
  {
    if |s| == 0 then [] else [f(s[0])] + Map(s[1..], f)
  }

  /** A value the mapping carries over keeps its sum. */
  lemma {:induction false} SumOfMap<A, B>(s: seq<A>, f: A -> B, va: A -> int, vb: B -> int)
    requires forall i :: 0 <= i < |s| ==> vb(f(s[i])) == va(s[i])
    ensures SumOf(Map(s, f), vb) == SumOf(s, va)
    decreases |s|
  {
    if |s| > 0 {
      assert Map(s, f)[1..] == Map(s[1..], f);
      assert forall i :: 0 <= i < |s| - 1 ==> s[1..][i] == s[i + 1];
      SumOfMap(s[1..], f, va, vb);
    }
  }

  /** Summing a constant 1 counts. */
  lemma {:induction false} SumOfOnes<T>(s: seq<T>, one: T -> int)
    requires forall i :: 0 <= i < |s| ==> one(s[i]) == 1
    ensures SumOf(s, one) == |s|
    decreases |s|
  {
    if |s| > 0 {
      assert forall i :: 0 <= i < |s| - 1 ==> s[1..][i] == s[i + 1];
      SumOfOnes(s[1..], one);
    }
  }

  /** A `$sum: 1` accumulator counts its group. */
  lemma {:induction false} SumKeyOnes<T, K>(s: seq<T>, key: T -> K, k: K, one: T -> int)
    requires forall i :: 0 <= i < |s| ==> one(s[i]) == 1
    ensures SumKey(s, key, k, one) == CountKey(s, key, k)
    decreases |s|
  {
    if |s| > 0 {
      assert forall i :: 0 <= i < |s| - 1 ==> s[1..][i] == s[i + 1];
      SumKeyOnes(s[1..], key, k, one);
    }
  }

  /** A key no document has counts nothing. */
  lemma {:induction false} CountKeyAbsent<T, K>(s: seq<T>, key: T -> K, k: K)
    requires forall i :: 0 <= i < |s| ==> key(s[i]) != k
    ensures CountKey(s, key, k) == 0
    decreases |s|
  {
    if |s| > 0 {
      assert forall i :: 0 <= i < |s| - 1 ==> s[1..][i] == s[i + 1];
      CountKeyAbsent(s[1..], key, k);
    }
  }
}
