/** The ordering discipline of a key's list: entries sorted ascending by
    cost, equal costs kept in arrival order. A list is built by inserting
    each new entry just after the last entry whose cost does not exceed it. */
module Ranking {
  import opened Models

  /** Each entry costs at least as much as the one before it. */
  predicate SortedByCost(s: seq<MapItem>)
  {
    forall i :: 0 < i < |s| ==> s[i - 1].cost <= s[i].cost
  }

  /** A list sorted by cost is ordered across any two positions. */
  lemma {:induction false} SortedAllPairs(s: seq<MapItem>)
    requires SortedByCost(s)
    ensures forall i, j :: 0 <= i < j < |s| ==> s[i].cost <= s[j].cost
  {
    if s != [] {
      var init := s[..|s| - 1];
      SortedAllPairs(init);
      forall i, j | 0 <= i < j < |s|
        ensures s[i].cost <= s[j].cost
      {
        if j < |s| - 1 {
          assert s[i] == init[i] && s[j] == init[j];
        } else if i < j - 1 {
          assert s[i].cost <= init[j - 1].cost;
        }
      }
    }
  }

  /** The entries of `s` whose cost is `c`, in their order in `s`. Two lists
      agree on this for every `c` exactly when they hold the same entries
      with the same relative order among equal costs. */
  function FilterCost(s: seq<MapItem>, c: int): (r: seq<MapItem>)
    ensures |r| <= |s|
  {
    if s == [] then []
    else FilterCost(s[..|s| - 1], c) + (if s[|s| - 1].cost == c then [s[|s| - 1]] else [])
  }

  lemma {:induction false} FilterCostAppend(a: seq<MapItem>, b: seq<MapItem>, c: int)
    ensures FilterCost(a + b, c) == FilterCost(a, c) + FilterCost(b, c)
    decreases |b|
  {
    if b == [] {
      assert a + b == a;
    } else {
      var b' := b[..|b| - 1];
      assert (a + b)[..|a + b| - 1] == a + b';
      FilterCostAppend(a, b', c);
    }
  }

  lemma {:induction false} FilterCostNone(s: seq<MapItem>, c: int)
    requires forall i :: 0 <= i < |s| ==> s[i].cost != c
    ensures FilterCost(s, c) == []
  {
    if s != [] {
      FilterCostNone(s[..|s| - 1], c);
    }
  }

  lemma {:induction false} FilterCostHas(s: seq<MapItem>, k: nat)
    requires k < |s|
    ensures FilterCost(s, s[k].cost) != []
  {
    var n := |s| - 1;
    if k < n {
      FilterCostHas(s[..n], k);
    }
  }

  /** In a sorted list, no cost that occurs exceeds the last entry's. */
  lemma {:induction false} FilterCostBounded(s: seq<MapItem>, c: int)
    requires SortedByCost(s)
    requires FilterCost(s, c) != []
    ensures c <= s[|s| - 1].cost
  {
    var n := |s| - 1;
    if s[n].cost != c {
      FilterCostBounded(s[..n], c);
    }
  }

  /** Where an entry `x` goes in `s`: just after the last entry whose cost is
      at most `x.cost`, or at the front when there is none. Found from the
      right, as the swap loop of the index build finds it. */
  function InsertionPoint(s: seq<MapItem>, x: MapItem): (j: nat)
    ensures j <= |s|
    ensures forall k :: j <= k < |s| ==> x.cost < s[k].cost
    ensures j > 0 ==> s[j - 1].cost <= x.cost
  {
    if s == [] then 0
    else if x.cost < s[|s| - 1].cost then InsertionPoint(s[..|s| - 1], x)
    else |s|
  }

  /** The two properties of InsertionPoint determine it. */
  lemma InsertionPointUnique(s: seq<MapItem>, x: MapItem, p: nat)
    requires p <= |s|
    requires forall k :: p <= k < |s| ==> x.cost < s[k].cost
    requires p > 0 ==> s[p - 1].cost <= x.cost
    ensures p == InsertionPoint(s, x)
  {
  }

  /** `s` with `x` placed at its insertion point. */
  function InsertStable(s: seq<MapItem>, x: MapItem): (r: seq<MapItem>)
    ensures |r| == |s| + 1
    ensures multiset(r) == multiset(s) + multiset{x}
  {
    var j := InsertionPoint(s, x);
    assert s == s[..j] + s[j..];
    s[..j] + [x] + s[j..]
  }

  lemma InsertStableSplit(s: seq<MapItem>, x: MapItem)
    ensures InsertStable(s, x) == s[..InsertionPoint(s, x)] + [x] + s[InsertionPoint(s, x)..]
  {
  }

  /** Splicing `x` into a sorted list at its insertion point keeps it sorted. */
  lemma {:induction false} SortedSplice(s: seq<MapItem>, x: MapItem, j: nat)
    requires SortedByCost(s) && j == InsertionPoint(s, x)
    ensures SortedByCost(s[..j] + [x] + s[j..])
  {
    var r := s[..j] + [x] + s[j..];
    forall i | 0 < i < |r|
      ensures r[i - 1].cost <= r[i].cost
    {
      if i < j {
        assert r[i - 1] == s[i - 1] && r[i] == s[i];
      } else if i == j {
        assert r[i - 1] == s[j - 1] && r[i] == x;
      } else if i == j + 1 {
        assert r[i - 1] == x && r[i] == s[j];
      } else {
        assert r[i - 1] == s[i - 2] && r[i] == s[i - 1];
      }
    }
  }

  /** Inserting into a sorted list keeps it sorted. */
  lemma {:induction false} InsertStableSorted(s: seq<MapItem>, x: MapItem)
    requires SortedByCost(s)
    ensures SortedByCost(InsertStable(s, x))
  {
    InsertStableSplit(s, x);
    SortedSplice(s, x, InsertionPoint(s, x));
  }

  /** Moving `x` in front of entries that all cost more than it changes no
      cost's sub-list. */
  lemma {:induction false} SpliceStable(lo: seq<MapItem>, x: MapItem, hi: seq<MapItem>, c: int)
    requires forall k :: 0 <= k < |hi| ==> x.cost < hi[k].cost
    ensures FilterCost(lo + [x] + hi, c) == FilterCost(lo + hi + [x], c)
  {
    var fx := FilterCost([x], c);
    assert fx == FilterCost([], c) + (if x.cost == c then [x] else []);
    calc {
      FilterCost(lo + [x] + hi, c);
      { FilterCostAppend(lo + [x], hi, c); }
      FilterCost(lo + [x], c) + FilterCost(hi, c);
      { FilterCostAppend(lo, [x], c); }
      FilterCost(lo, c) + fx + FilterCost(hi, c);
      { if x.cost == c { FilterCostNone(hi, c); } }
      FilterCost(lo, c) + FilterCost(hi, c) + fx;
      { FilterCostAppend(lo, hi, c); }
      FilterCost(lo + hi, c) + fx;
      { FilterCostAppend(lo + hi, [x], c); }
      FilterCost(lo + hi + [x], c);
    }
  }

  /** Insertion never moves `x` past an entry of equal cost: per cost, the
      result lists the same entries in the same order as appending would. */
  lemma {:induction false} InsertStableStable(s: seq<MapItem>, x: MapItem, c: int)
    ensures FilterCost(InsertStable(s, x), c) == FilterCost(s + [x], c)
  {
    var j := InsertionPoint(s, x);
    assert s == s[..j] + s[j..];
    InsertStableSplit(s, x);
    SpliceStable(s[..j], x, s[j..], c);
  }

  /** The list built by inserting `items` one after another into an empty one. */
  function InsertAll(items: seq<MapItem>): (r: seq<MapItem>)
    ensures |r| == |items|
    ensures multiset(r) == multiset(items)
  {
    if items == [] then []
    else
      assert items == items[..|items| - 1] + [items[|items| - 1]];
      InsertStable(InsertAll(items[..|items| - 1]), items[|items| - 1])
  }

  lemma {:induction false} InsertAllSorted(items: seq<MapItem>)
    ensures SortedByCost(InsertAll(items))
  {
    if items != [] {
      InsertAllSorted(items[..|items| - 1]);
      InsertStableSorted(InsertAll(items[..|items| - 1]), items[|items| - 1]);
    }
  }

  /** Building by insertion is stable: per cost, the entries come out in
      the order they went in. */
  lemma {:induction false} InsertAllStable(items: seq<MapItem>, c: int)
    ensures FilterCost(InsertAll(items), c) == FilterCost(items, c)
  {
    if items != [] {
      var init, x := items[..|items| - 1], items[|items| - 1];
      assert items == init + [x];
      calc {
        FilterCost(InsertAll(items), c);
        FilterCost(InsertStable(InsertAll(init), x), c);
        { InsertStableStable(InsertAll(init), x, c); }
        FilterCost(InsertAll(init) + [x], c);
        { FilterCostAppend(InsertAll(init), [x], c); }
        FilterCost(InsertAll(init), c) + FilterCost([x], c);
        { InsertAllStable(init, c); }
        FilterCost(init, c) + FilterCost([x], c);
        { FilterCostAppend(init, [x], c); }
        FilterCost(items, c);
      }
    }
  }

  /** Only the empty list has no entry of any cost. */
  lemma {:induction false} FilterCostAllEmpty(s: seq<MapItem>)
    ensures (forall c :: FilterCost(s, c) == []) ==> s == []
  {
    if s != [] {
      FilterCostHas(s, |s| - 1);
    }
  }

  /** If the cost of `a`'s last entry occurs in sorted `b` as often as in `a`,
      it does not exceed the cost of `b`'s last entry. */
  lemma {:induction false} LastCostBounded(a: seq<MapItem>, b: seq<MapItem>)
    requires a != [] && b != [] && SortedByCost(b)
    requires FilterCost(a, a[|a| - 1].cost) == FilterCost(b, a[|a| - 1].cost)
    ensures a[|a| - 1].cost <= b[|b| - 1].cost
  {
    FilterCostHas(a, |a| - 1);
    FilterCostBounded(b, a[|a| - 1].cost);
  }

  /** Sorted lists that agree per cost end with the same entry. */
  lemma {:induction false} SameLast(a: seq<MapItem>, b: seq<MapItem>)
    requires a != [] && b != []
    requires SortedByCost(a) && SortedByCost(b)
    requires forall c :: FilterCost(a, c) == FilterCost(b, c)
    ensures a[|a| - 1] == b[|b| - 1]
  {
    var x, y := a[|a| - 1], b[|b| - 1];
    assert FilterCost(a, x.cost) == FilterCost(b, x.cost);
    assert FilterCost(b, y.cost) == FilterCost(a, y.cost);
    LastCostBounded(a, b);
    LastCostBounded(b, a);
    var fa, fb := FilterCost(a, x.cost), FilterCost(b, x.cost);
    assert fa == FilterCost(a[..|a| - 1], x.cost) + [x];
    assert fb == FilterCost(b[..|b| - 1], x.cost) + [y];
    assert fa[|fa| - 1] == x && fb[|fb| - 1] == y;
  }

  /** Dropping the same last entry from lists that agree per cost leaves
      lists that agree per cost. */
  lemma {:induction false} SamePrefixCosts(a: seq<MapItem>, b: seq<MapItem>, c: int)
    requires a != [] && b != [] && a[|a| - 1] == b[|b| - 1]
    requires FilterCost(a, c) == FilterCost(b, c)
    ensures FilterCost(a[..|a| - 1], c) == FilterCost(b[..|b| - 1], c)
  {
    var a', b', x := a[..|a| - 1], b[..|b| - 1], a[|a| - 1];
    var fa := FilterCost(a, c);
    if x.cost == c {
      assert FilterCost(a', c) == fa[..|fa| - 1];
      assert FilterCost(b', c) == fa[..|fa| - 1];
    } else {
      assert FilterCost(a', c) == fa;
      assert FilterCost(b', c) == fa;
    }
  }

  /** Two sorted lists that agree per cost are the same list: a sorted list is
      determined by its entries and their order among equal costs. */
  lemma {:induction false} SortedDeterminedByCosts(a: seq<MapItem>, b: seq<MapItem>)
    requires SortedByCost(a) && SortedByCost(b)
    requires forall c :: FilterCost(a, c) == FilterCost(b, c)
    ensures a == b
    decreases |a| + |b|
  {
    if a == [] || b == [] {
      FilterCostAllEmpty(a);
      FilterCostAllEmpty(b);
    } else {
      SameLast(a, b);
      var a', b' := a[..|a| - 1], b[..|b| - 1];
      forall c
        ensures FilterCost(a', c) == FilterCost(b', c)
      {
        SamePrefixCosts(a, b, c);
      }
      SortedDeterminedByCosts(a', b');
      assert a == a' + [a[|a| - 1]] && b == b' + [b[|b| - 1]];
    }
  }

  /** The reference definition: the only sorted list holding `items` with
      equal costs in arrival order is the one insertion builds. */
  lemma {:induction false} InsertAllIsTheStableSort(items: seq<MapItem>, r: seq<MapItem>)
    requires SortedByCost(r)
    requires forall c :: FilterCost(r, c) == FilterCost(items, c)
    ensures r == InsertAll(items)
  {
    InsertAllSorted(items);
    forall c
      ensures FilterCost(r, c) == FilterCost(InsertAll(items), c)
    {
      InsertAllStable(items, c);
    }
    SortedDeterminedByCosts(r, InsertAll(items));
  }
}
