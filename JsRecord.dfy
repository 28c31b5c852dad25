/** The dictionary idiom the reports use: a `Record<K, number>` filled by
    `acc[k] = (acc[k] || 0) + v`, read back with `Object.entries`, and ordered
    with `Array.prototype.sort((a, b) => b - a)`.
    A record is a sequence of (key, value) entries in insertion order, which is
    the order `Object.entries` gives for keys that are not array indices; keys
    that are array indices come first, in ascending order (`IndexOrder`). */
module JsRecord {

  type Entries<K> = seq<(K, int)>

  function KeysOf<K>(acc: Entries<K>): (ks: seq<K>)
    ensures |ks| == |acc|
    ensures forall i :: 0 <= i < |acc| ==> ks[i] == acc[i].0
  {
    if acc == [] then [] else [acc[0].0] + KeysOf(acc[1..])
  }

  predicate DistinctKeys<K(==)>(acc: Entries<K>) {
    forall i, j :: 0 <= i < j < |acc| ==> acc[i].0 != acc[j].0
  }

  /** The sum of the values of a record. */
  function SumValues<K>(acc: Entries<K>): int {
    if acc == [] then 0 else acc[0].1 + SumValues(acc[1..])
  }

  /** `acc[k] || 0`: the value stored under `k`, 0 when absent. */
  function Lookup<K(==,!new)>(acc: Entries<K>, k: K): int {
    if acc == [] then 0 else if acc[0].0 == k then acc[0].1 else Lookup(acc[1..], k)
  }

  /** `acc[k] = (acc[k] || 0) + v`: an existing key keeps its place, a new key goes last. */
  function AddTo<K(==,!new)>(acc: Entries<K>, k: K, v: int): (r: Entries<K>)
    ensures SumValues(r) == SumValues(acc) + v
    ensures Lookup(r, k) == Lookup(acc, k) + v
    ensures forall j :: j != k ==> Lookup(r, j) == Lookup(acc, j)
  {
    if acc == [] then [(k, v)]
    else if acc[0].0 == k then [(k, acc[0].1 + v)] + acc[1..]
    else [acc[0]] + AddTo(acc[1..], k, v)
  }

  /** `AddTo` adds `k` to the keys and no other, and never duplicates a key. */
  lemma {:induction false} AddToKeys<K(!new)>(acc: Entries<K>, k: K, v: int)
    ensures forall j :: j in KeysOf(AddTo(acc, k, v)) <==> j in KeysOf(acc) || j == k
    ensures DistinctKeys(acc) ==> DistinctKeys(AddTo(acc, k, v))
  {
    if acc != [] && acc[0].0 != k {
      var rest := AddTo(acc[1..], k, v);
      AddToKeys(acc[1..], k, v);
      assert KeysOf([acc[0]] + rest) == [acc[0].0] + KeysOf(rest);
      assert KeysOf(acc) == [acc[0].0] + KeysOf(acc[1..]);
      if DistinctKeys(acc) {
        assert DistinctKeys(acc[1..]);
        forall m | 0 <= m < |acc| - 1 ensures KeysOf(acc[1..])[m] != acc[0].0 {
          assert acc[1..][m] == acc[m + 1];
        }
        assert acc[0].0 !in KeysOf(acc[1..]);
        forall j | 0 <= j < |rest| ensures rest[j].0 != acc[0].0 {
          assert rest[j].0 in KeysOf(rest);
        }
      }
    } else if acc != [] {
      assert KeysOf(AddTo(acc, k, v)) == [k] + KeysOf(acc[1..]);
      assert KeysOf(acc) == [k] + KeysOf(acc[1..]);
    }
  }

  /** The record built by folding `AddTo` over `es` from left to right. */
  function Group<K(==,!new)>(es: Entries<K>): Entries<K> {
    if es == [] then [] else AddTo(Group(es[..|es| - 1]), es[|es| - 1].0, es[|es| - 1].1)
  }

  /** The sum of all values in a list of entries. */
  function Total<K>(es: Entries<K>): int {
    if es == [] then 0 else Total(es[..|es| - 1]) + es[|es| - 1].1
  }

  /** The sum of the values of the entries whose key is `k`. */
  function TotalFor<K(==,!new)>(es: Entries<K>, k: K): int {
    if es == [] then 0
    else TotalFor(es[..|es| - 1], k) + (if es[|es| - 1].0 == k then es[|es| - 1].1 else 0)
  }

  /** Grouping loses nothing: the record's values add up to the total of the entries. */
  lemma {:induction false} GroupSum<K(!new)>(es: Entries<K>)
    ensures SumValues(Group(es)) == Total(es)
  {
    if es != [] {
      GroupSum(es[..|es| - 1]);
    }
  }

  /** Each key's value is the total of the entries carrying that key, each key
      appears once, and exactly the keys of the entries appear. */
  lemma {:induction false} GroupLookup<K(!new)>(es: Entries<K>, k: K)
    ensures Lookup(Group(es), k) == TotalFor(es, k)
    ensures DistinctKeys(Group(es))
    ensures k in KeysOf(Group(es)) <==> exists i :: 0 <= i < |es| && es[i].0 == k
  {
    if es != [] {
      var init := es[..|es| - 1];
      GroupLookup(init, k);
      AddToKeys(Group(init), es[|es| - 1].0, es[|es| - 1].1);
      if exists i :: 0 <= i < |init| && init[i].0 == k {
        var i :| 0 <= i < |init| && init[i].0 == k;
        assert es[i].0 == k;
      }
      if exists i :: 0 <= i < |es| && es[i].0 == k {
        var i :| 0 <= i < |es| && es[i].0 == k;
        if i < |init| { assert init[i].0 == k; }
      }
    }
  }

  // ------------------------------------------------------------- ordering

  /** Ordered by value, largest first. */
  predicate Descending<K>(s: Entries<K>) {
    forall i, j :: 0 <= i < j < |s| ==> s[i].1 >= s[j].1
  }

  /** Inserts `e` after every entry whose value is at least `e`'s; the contract
      states the order by value and the permutation, not the order of ties. */
  function InsertDesc<K>(sorted: Entries<K>, e: (K, int)): (r: Entries<K>)
    requires Descending(sorted)
    ensures Descending(r)
    ensures multiset(r) == multiset(sorted) + multiset{e}
  {
    if sorted == [] then [e]
    else if sorted[0].1 < e.1 then
      ConsDescending(e, sorted);
      [e] + sorted
    else
      var rest := InsertDesc(sorted[1..], e);
      assert multiset(sorted) == multiset{sorted[0]} + multiset(sorted[1..]) by {
        assert sorted == [sorted[0]] + sorted[1..];
      }
      BoundedBy(sorted, rest, e);
      ConsDescending(sorted[0], rest);
      [sorted[0]] + rest
  }

  /** Inserting below the head of a descending list keeps every entry at most the head. */
  lemma BoundedBy<K>(sorted: Entries<K>, rest: Entries<K>, e: (K, int))
    requires Descending(sorted) && sorted != [] && e.1 <= sorted[0].1
    requires multiset(rest) == multiset(sorted[1..]) + multiset{e}
    ensures forall j :: 0 <= j < |rest| ==> rest[j].1 <= sorted[0].1
  {
    forall j | 0 <= j < |rest| ensures rest[j].1 <= sorted[0].1 {
      assert rest[j] in multiset(rest);
      if rest[j] != e {
        var k :| 0 <= k < |sorted[1..]| && sorted[1..][k] == rest[j];
        assert sorted[k + 1] == rest[j];
      }
    }
  }

  /** An entry at least as large as every entry of a descending list can go in front. */
  lemma ConsDescending<K>(x: (K, int), s: Entries<K>)
    requires Descending(s)
    requires forall j :: 0 <= j < |s| ==> s[j].1 <= x.1
    ensures Descending([x] + s)
  {
    var c := [x] + s;
    assert forall j :: 1 <= j < |c| ==> c[j] == s[j - 1];
  }

  lemma {:induction false} InsertDescSum<K>(sorted: Entries<K>, e: (K, int))
    requires Descending(sorted)
    ensures SumValues(InsertDesc(sorted, e)) == SumValues(sorted) + e.1
  {
    if sorted != [] && sorted[0].1 >= e.1 {
      InsertDescSum(sorted[1..], e);
    }
  }

  /** `Object.entries(acc).sort(([, a], [, b]) => b - a)`. */
  function SortDesc<K>(es: Entries<K>): (r: Entries<K>)
    ensures Descending(r)
    ensures multiset(r) == multiset(es)
    ensures |r| == |es|
  {
    if es == [] then []
    else
      var init := es[..|es| - 1];
      var last := es[|es| - 1];
      assert es == init + [last];
      assert multiset(es) == multiset(init) + multiset{last};
      var r := InsertDesc(SortDesc(init), last);
      assert |r| == |multiset(r)|;
      r
  }

  /** Sorting keeps the total. */
  lemma {:induction false} SortDescSum<K>(es: Entries<K>)
    ensures SumValues(SortDesc(es)) == Total(es)
  {
    if es != [] {
      var init := es[..|es| - 1];
      SortDescSum(init);
      InsertDescSum(SortDesc(init), es[|es| - 1]);
    }
  }

  // ------------------------------------------------------------- rankings

  lemma {:induction false} SumValuesAppend<K>(es: Entries<K>, e: (K, int))
    ensures SumValues(es + [e]) == SumValues(es) + e.1
  {
    if es != [] {
      assert (es + [e])[1..] == es[1..] + [e];
      SumValuesAppend(es[1..], e);
    }
  }

  /** Summing from the front or from the back gives the same total. */
  lemma {:induction false} TotalIsSumValues<K>(es: Entries<K>)
    ensures Total(es) == SumValues(es)
  {
    if es != [] {
      var init := es[..|es| - 1];
      TotalIsSumValues(init);
      SumValuesAppend(init, es[|es| - 1]);
      assert es == init + [es[|es| - 1]];
    }
  }

  /** In a record without repeated keys, an entry's value is what its key looks up. */
  lemma {:induction false} LookupMember<K(!new)>(acc: Entries<K>, e: (K, int))
    requires DistinctKeys(acc) && e in acc
    ensures Lookup(acc, e.0) == e.1
  {
    if acc[0] != e {
      var j :| 0 <= j < |acc| && acc[j] == e;
      assert acc[1..][j - 1] == e;
      assert acc[0].0 != acc[j].0;
      LookupMember(acc[1..], e);
    }
  }

  /** Reordering the entries keeps the set of keys. */
  lemma KeysOfPermutation<K>(a: Entries<K>, b: Entries<K>, k: K)
    requires multiset(a) == multiset(b)
    ensures k in KeysOf(a) <==> k in KeysOf(b)
  {
    if k in KeysOf(a) {
      var i :| 0 <= i < |a| && KeysOf(a)[i] == k;
      assert a[i] in multiset(b);
      var j :| 0 <= j < |b| && b[j] == a[i];
      assert KeysOf(b)[j] == k;
    }
    if k in KeysOf(b) {
      var i :| 0 <= i < |b| && KeysOf(b)[i] == k;
      assert b[i] in multiset(a);
      var j :| 0 <= j < |a| && a[j] == b[i];
      assert KeysOf(a)[j] == k;
    }
  }

  /** `Object.entries(acc).sort((a, b) => b - a)` after folding `es` into
      `acc`: largest first, adding up to the entries' total, each entry the
      total of its key, and exactly the keys that occur in `es`. */
  lemma Ranking<K(!new)>(es: Entries<K>)
    ensures var r := SortDesc(Group(es));
      && Descending(r)
      && SumValues(r) == Total(es)
      && (forall e :: e in r ==> e.1 == TotalFor(es, e.0))
      && (forall k :: k in KeysOf(r) <==> exists i :: 0 <= i < |es| && es[i].0 == k)
  {
    var g := Group(es);
    var r := SortDesc(g);
    TotalIsSumValues(g);
    GroupSum(es);
    SortDescSum(g);
    forall e | e in r ensures e.1 == TotalFor(es, e.0) {
      assert e in multiset(g);
      GroupLookup(es, e.0);
      LookupMember(g, e);
    }
    forall k ensures k in KeysOf(r) <==> exists i :: 0 <= i < |es| && es[i].0 == k {
      RankingKey(es, k);
    }
  }

  /** One key is ranked iff some entry carries it. */
  lemma RankingKey<K(!new)>(es: Entries<K>, k: K)
    ensures k in KeysOf(SortDesc(Group(es))) <==> exists i :: 0 <= i < |es| && es[i].0 == k
  {
    KeysOfPermutation(SortDesc(Group(es)), Group(es), k);
    GroupLookup(es, k);
  }

  // ------------------------------------------------------ integer-like keys

  /** Keys strictly ascending: the order `Object.entries` gives for keys that
      are array indices, such as day numbers, whatever their insertion order. */
  predicate KeysAscending(s: Entries<int>) {
    forall i, j :: 0 <= i < j < |s| ==> s[i].0 < s[j].0
  }

  /** Inserts `e`, whose key is new, at its place among ascending keys. */
  function InsertByKey(sorted: Entries<int>, e: (int, int)): (r: Entries<int>)
    requires KeysAscending(sorted)
    requires forall j :: 0 <= j < |sorted| ==> sorted[j].0 != e.0
    ensures KeysAscending(r)
    ensures multiset(r) == multiset(sorted) + multiset{e}
  {
    if sorted == [] then [e]
    else if e.0 < sorted[0].0 then
      ConsAscending(e, sorted);
      [e] + sorted
    else
      var rest := InsertByKey(sorted[1..], e);
      assert multiset(sorted) == multiset{sorted[0]} + multiset(sorted[1..]) by {
        assert sorted == [sorted[0]] + sorted[1..];
      }
      KeysAbove(sorted, rest, e);
      ConsAscending(sorted[0], rest);
      [sorted[0]] + rest
  }

  /** An entry whose key is below every key of an ascending list can go in front. */
  lemma ConsAscending(x: (int, int), s: Entries<int>)
    requires KeysAscending(s)
    requires forall j :: 0 <= j < |s| ==> x.0 < s[j].0
    ensures KeysAscending([x] + s)
  {
    var c := [x] + s;
    assert forall j :: 1 <= j < |c| ==> c[j] == s[j - 1];
  }

  /** Inserting above the head of an ascending list keeps every key above it. */
  lemma KeysAbove(sorted: Entries<int>, rest: Entries<int>, e: (int, int))
    requires KeysAscending(sorted) && sorted != [] && e.0 > sorted[0].0
    requires multiset(rest) == multiset(sorted[1..]) + multiset{e}
    ensures forall j :: 0 <= j < |rest| ==> rest[j].0 > sorted[0].0
  {
    forall j | 0 <= j < |rest| ensures rest[j].0 > sorted[0].0 {
      assert rest[j] in multiset(rest);
      if rest[j] != e {
        var k :| 0 <= k < |sorted[1..]| && sorted[1..][k] == rest[j];
        assert sorted[k + 1] == rest[j];
      }
    }
  }

  lemma {:induction false} InsertByKeySum(sorted: Entries<int>, e: (int, int))
    requires KeysAscending(sorted)
    requires forall j :: 0 <= j < |sorted| ==> sorted[j].0 != e.0
    ensures SumValues(InsertByKey(sorted, e)) == SumValues(sorted) + e.1
  {
    if sorted != [] && e.0 >= sorted[0].0 {
      InsertByKeySum(sorted[1..], e);
    }
  }

  /** `Object.entries(acc)` for a record whose keys are all array indices: the
      entries in ascending key order. */
  function IndexOrder(es: Entries<int>): (r: Entries<int>)
    requires DistinctKeys(es)
    ensures KeysAscending(r)
    ensures multiset(r) == multiset(es)
    ensures |r| == |es|
  {
    if es == [] then []
    else
      var init := es[..|es| - 1];
      var last := es[|es| - 1];
      assert es == init + [last];
      assert multiset(es) == multiset(init) + multiset{last};
      var sorted := IndexOrder(init);
      forall j | 0 <= j < |sorted| ensures sorted[j].0 != last.0 {
        assert sorted[j] in multiset(init);
        var k :| 0 <= k < |init| && init[k] == sorted[j];
        assert es[k] == sorted[j];
      }
      var r := InsertByKey(sorted, last);
      assert |r| == |multiset(r)|;
      r
  }

  lemma {:induction false} IndexOrderSum(es: Entries<int>)
    requires DistinctKeys(es)
    ensures SumValues(IndexOrder(es)) == Total(es)
  {
    if es != [] {
      var init := es[..|es| - 1];
      var last := es[|es| - 1];
      IndexOrderSum(init);
      var sorted := IndexOrder(init);
      forall j | 0 <= j < |sorted| ensures sorted[j].0 != last.0 {
        assert sorted[j] in multiset(init);
        var k :| 0 <= k < |init| && init[k] == sorted[j];
        assert es[k] == sorted[j];
      }
      InsertByKeySum(sorted, last);
    }
  }

  /** `Object.entries` of a record of integer keys filled from `es`: keys
      strictly ascending, adding up to the entries' total, each entry the
      total of its key, and exactly the keys that occur in `es`. */
  lemma IndexRecord(es: Entries<int>)
    ensures DistinctKeys(Group(es))
    ensures var r := IndexOrder(Group(es));
      && KeysAscending(r)
      && SumValues(r) == Total(es)
      && (forall e :: e in r ==> e.1 == TotalFor(es, e.0))
      && (forall k :: k in KeysOf(r) <==> exists i :: 0 <= i < |es| && es[i].0 == k)
  {
    GroupLookup(es, 0);
    var g := Group(es);
    var r := IndexOrder(g);
    TotalIsSumValues(g);
    GroupSum(es);
    IndexOrderSum(g);
    forall e | e in r ensures e.1 == TotalFor(es, e.0) {
      assert e in multiset(g);
      GroupLookup(es, e.0);
      LookupMember(g, e);
    }
    forall k ensures k in KeysOf(r) <==> exists i :: 0 <= i < |es| && es[i].0 == k {
      KeysOfPermutation(r, g, k);
      GroupLookup(es, k);
    }
  }
}
