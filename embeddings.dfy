/**
 * The reordering step of `create_embedding` in both clients
 * (`sorted(data["data"], key=lambda x: x["index"])` followed by
 * `[item["embedding"] for item in ...]`): the API may return the embedding
 * items in any order, each tagged with the position of its input text.
 *
 * `sorted` is Python's stable sort; it is modelled as an insertion sort
 * that keeps items with equal indices in their original order. The vector
 * type is a parameter: embeddings are floats and are never inspected.
 */
module Embeddings {

  /** One element of the response's `data` list. */
  datatype Item<V> = Item(index: int, embedding: V)

  function Indices<V>(items: seq<Item<V>>): (r: seq<int>)
    ensures |r| == |items| && forall i | 0 <= i < |items| :: r[i] == items[i].index
  {
    if items == [] then [] else [items[0].index] + Indices(items[1..])
  }

  predicate Ascending(xs: seq<int>) {
    forall i, j | 0 <= i < j < |xs| :: xs[i] <= xs[j]
  }

  predicate SortedByIndex<V>(items: seq<Item<V>>) {
    forall i, j | 0 <= i < j < |items| :: items[i].index <= items[j].index
  }

  /** The items carrying index `k`, in the order they appear. */
  function WithIndex<V>(items: seq<Item<V>>, k: int): seq<Item<V>> {
    if items == [] then []
    else (if items[0].index == k then [items[0]] else []) + WithIndex(items[1..], k)
  }

  /** `x` placed before the first item whose index is not smaller than its own. */
  function Insert<V>(x: Item<V>, s: seq<Item<V>>): (r: seq<Item<V>>)
    ensures |r| == |s| + 1
  {
    if s == [] || x.index <= s[0].index then [x] + s
    else [s[0]] + Insert(x, s[1..])
  }

  lemma {:induction false} InsertMultiset<V>(x: Item<V>, s: seq<Item<V>>)
    ensures multiset(Insert(x, s)) == multiset(s) + multiset{x}
  {
    if s != [] && x.index > s[0].index {
      var t := s[1..];
      InsertMultiset(x, t);
      assert s == [s[0]] + t;
      calc {
        multiset(Insert(x, s));
        multiset([s[0]] + Insert(x, t));
        multiset{s[0]} + multiset(Insert(x, t));
        multiset{s[0]} + multiset(t) + multiset{x};
        multiset([s[0]] + t) + multiset{x};
      }
    } else {
      assert multiset([x] + s) == multiset{x} + multiset(s);
    }
  }

  lemma {:induction false} InsertIndices<V>(x: Item<V>, s: seq<Item<V>>)
    ensures multiset(Indices(Insert(x, s))) == multiset(Indices(s)) + multiset{x.index}
  {
    if s != [] && x.index > s[0].index {
      var t := s[1..];
      var r := Insert(x, t);
      assert Insert(x, s) == [s[0]] + r;
      assert s == [s[0]] + t;
      InsertIndices(x, t);
      IndicesCons(s[0], r);
      IndicesCons(s[0], t);
    } else {
      assert Insert(x, s) == [x] + s;
      IndicesCons(x, s);
    }
  }

  lemma IndicesCons<V>(x: Item<V>, s: seq<Item<V>>)
    ensures multiset(Indices([x] + s)) == multiset{x.index} + multiset(Indices(s))
  {
    assert ([x] + s)[1..] == s;
    assert Indices([x] + s) == [x.index] + Indices(s);
  }

  lemma {:induction false} InsertSorted<V>(x: Item<V>, s: seq<Item<V>>)
    requires SortedByIndex(s)
    ensures SortedByIndex(Insert(x, s))
  {
    if s != [] && x.index > s[0].index {
      var rest := Insert(x, s[1..]);
      InsertSorted(x, s[1..]);
      InsertMultiset(x, s[1..]);
      var r := [s[0]] + rest;
      forall j | 0 < j < |r| ensures s[0].index <= r[j].index {
        assert r[j] == rest[j - 1];
        assert rest[j - 1] in multiset(rest);
        if r[j] != x {
          assert r[j] in multiset(s[1..]);
          var m :| 0 <= m < |s[1..]| && s[1..][m] == r[j];
          assert s[m + 1] == r[j];
        }
      }
    }
  }

  lemma {:induction false} InsertWithIndex<V>(x: Item<V>, s: seq<Item<V>>, k: int)
    ensures WithIndex(Insert(x, s), k) == if x.index == k then [x] + WithIndex(s, k) else WithIndex(s, k)
  {
    var r := Insert(x, s);
    if s == [] || x.index <= s[0].index {
      assert r[1..] == s;
    } else {
      InsertWithIndex(x, s[1..], k);
      assert r[1..] == Insert(x, s[1..]);
    }
  }

  /** `sorted(items, key=lambda x: x["index"])`. */
  function OrderByIndex<V>(items: seq<Item<V>>): (r: seq<Item<V>>)
    ensures |r| == |items|
  {
    if items == [] then [] else Insert(items[0], OrderByIndex(items[1..]))
  }

  /** The result is ordered by index. */
  lemma {:induction false} OrderByIndexSorted<V>(items: seq<Item<V>>)
    ensures SortedByIndex(OrderByIndex(items))
  {
    if items != [] {
      OrderByIndexSorted(items[1..]);
      InsertSorted(items[0], OrderByIndex(items[1..]));
    }
  }

  /** The result is a permutation of the input ... */
  lemma {:induction false} OrderByIndexPermutes<V>(items: seq<Item<V>>)
    ensures multiset(OrderByIndex(items)) == multiset(items)
  {
    if items != [] {
      var t := items[1..];
      OrderByIndexPermutes(t);
      InsertMultiset(items[0], OrderByIndex(t));
      assert items == [items[0]] + t;
      assert multiset(items) == multiset(t) + multiset{items[0]};
    }
  }

  /** ... and so are its indices. */
  lemma {:induction false} OrderByIndexPermutesIndices<V>(items: seq<Item<V>>)
    ensures multiset(Indices(OrderByIndex(items))) == multiset(Indices(items))
  {
    if items != [] {
      var t := items[1..];
      OrderByIndexPermutesIndices(t);
      InsertIndices(items[0], OrderByIndex(t));
      assert Indices(items) == [items[0].index] + Indices(t);
      assert multiset(Indices(items)) == multiset(Indices(t)) + multiset{items[0].index};
    }
  }

  lemma SortedIndicesAscend<V>(items: seq<Item<V>>)
    requires SortedByIndex(items)
    ensures Ascending(Indices(items))
  {
  }

  /** Stability: the items sharing an index keep their relative order. */
  lemma {:induction false} OrderByIndexStable<V>(items: seq<Item<V>>, k: int)
    ensures WithIndex(OrderByIndex(items), k) == WithIndex(items, k)
  {
    if items != [] {
      OrderByIndexStable(items[1..], k);
      InsertWithIndex(items[0], OrderByIndex(items[1..]), k);
    }
  }

  /** `[item["embedding"] for item in embeddings_data]`. */
  function Embeddings<V>(items: seq<Item<V>>): (r: seq<V>)
    ensures |r| == |items|
    ensures forall k | 0 <= k < |items| :: r[k] == OrderByIndex(items)[k].embedding
  {
    var sorted := OrderByIndex(items);
    seq(|sorted|, k requires 0 <= k < |sorted| => sorted[k].embedding)
  }

  /** The indices `0, 1, ..., n - 1`. */
  function Range(n: nat): (r: seq<int>)
    ensures |r| == n && forall i | 0 <= i < n :: r[i] == i
  {
    seq(n, i requires 0 <= i < n => i)
  }

  lemma AscendingHeads(a: seq<int>, b: seq<int>)
    requires a != [] && Ascending(a) && Ascending(b) && multiset(a) == multiset(b)
    ensures b != [] && a[0] == b[0]
  {
    assert a[0] in multiset(b);
    var i :| 0 <= i < |b| && b[i] == a[0];
    assert b[0] in multiset(a);
    var j :| 0 <= j < |a| && a[j] == b[0];
  }

  lemma TailMultiset(a: seq<int>, b: seq<int>)
    requires a != [] && b != [] && a[0] == b[0] && multiset(a) == multiset(b)
    ensures multiset(a[1..]) == multiset(b[1..])
  {
    assert a == [a[0]] + a[1..];
    assert b == [b[0]] + b[1..];
    assert multiset(a[1..]) == multiset(a) - multiset{a[0]};
    assert multiset(b[1..]) == multiset(b) - multiset{b[0]};
  }

  /** Two ascending sequences with the same elements are equal. */
  lemma {:induction false} AscendingUnique(a: seq<int>, b: seq<int>)
    requires Ascending(a) && Ascending(b) && multiset(a) == multiset(b)
    ensures a == b
  {
    if a == [] {
      assert |b| == |multiset(b)|;
    } else {
      AscendingHeads(a, b);
      TailMultiset(a, b);
      assert Ascending(a[1..]) && Ascending(b[1..]);
      AscendingUnique(a[1..], b[1..]);
      assert a == [a[0]] + a[1..];
      assert b == [b[0]] + b[1..];
    }
  }

  /**
   * When the indices are exactly `0 .. n - 1` in some order (one item per
   * input text), the reordered list has the item for text `k` at position `k`.
   */
  lemma PositionIsIndex<V>(items: seq<Item<V>>)
    requires multiset(Indices(items)) == multiset(Range(|items|))
    ensures forall k | 0 <= k < |items| :: OrderByIndex(items)[k].index == k
  {
    var r := OrderByIndex(items);
    OrderByIndexSorted(items);
    SortedIndicesAscend(r);
    OrderByIndexPermutesIndices(items);
    AscendingUnique(Indices(r), Range(|items|));
    forall k | 0 <= k < |items| ensures r[k].index == k {
      assert Indices(r)[k] == Range(|items|)[k];
    }
  }

  /** ... so the embedding of text `i` is the vector returned at position `i`. */
  lemma EmbeddingPlacement<V>(items: seq<Item<V>>, i: int)
    requires multiset(Indices(items)) == multiset(Range(|items|))
    requires 0 <= i < |items|
    ensures 0 <= items[i].index < |items|
    ensures Embeddings(items)[items[i].index] == items[i].embedding
  {
    var r := OrderByIndex(items);
    PositionIsIndex(items);
    var j := FoundInOrder(items, i);
    assert r[j].index == j;
    assert Embeddings(items)[j] == r[j].embedding;
  }

  /** Every input item has a position in the reordered list. */
  lemma FoundInOrder<V>(items: seq<Item<V>>, i: int) returns (j: int)
    requires 0 <= i < |items|
    ensures 0 <= j < |items| && OrderByIndex(items)[j] == items[i]
  {
    var r := OrderByIndex(items);
    OrderByIndexPermutes(items);
    assert items[i] in multiset(items);
    assert items[i] in r;
    j :| 0 <= j < |r| && r[j] == items[i];
  }
}
