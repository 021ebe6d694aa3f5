/** The suggestion store: the current index, rebuilt wholesale on every
    successful reload and read by lookups. */
module Store {
  import opened Models
  import opened Ranking
  import opened Index

  type Bytes = seq<bv8>

  /** What an external step (reading the dataset file, decoding its JSON)
      gives back: a value or the reason it failed. */
  datatype Fetched<T> = Failed(reason: string) | Fetched(value: T)

  /** The backward swap pass run after appending an entry to a sorted list:
      walking from the end to the front, swap each pair whose right element
      costs strictly less than its left neighbour. The pass never stops
      early; once the new entry has settled, the sorted prefix gives no more
      swaps. */
  method InsertStep(a: array<MapItem>)
    requires a.Length > 0 && SortedByCost(a[..a.Length - 1])
    modifies a
    ensures a[..] == InsertStable(old(a[..a.Length - 1]), old(a[a.Length - 1]))
  {
    ghost var s, x := a[..a.Length - 1], a[a.Length - 1];
    ghost var j := InsertionPoint(s, x);
    ghost var p := a.Length - 1;  // where the new entry currently sits
    var i := a.Length - 1;
    while i > 0
      invariant 0 <= i <= |s| == a.Length - 1
      invariant p == if i >= j then i else j
      invariant forall k :: 0 <= k < p ==> a[k] == s[k]
      invariant a[p] == x
      invariant forall k :: p < k < a.Length ==> a[k] == s[k - 1]
    {
      // The pair compared is out of order exactly when the new entry has not
      // yet reached its insertion point.
      if i > j {
        assert a[i] == x && a[i - 1] == s[i - 1] && x.cost < s[i - 1].cost;
      } else if i == j {
        assert a[i] == x && a[i - 1] == s[i - 1] && s[i - 1].cost <= x.cost;
      } else {
        assert a[i - 1] == s[i - 1] && a[i] == s[i];
      }
      if a[i].cost < a[i - 1].cost {
        a[i], a[i - 1] := a[i - 1], a[i];
        p := i - 1;
      }
      i := i - 1;
    }
    SpliceFromParts(a[..], s, x, p);
    InsertStableSplit(s, x);
  }

  /** Appends `item` to a sorted list (a fresh backing array, as a full
      slice's `append` allocates) and runs the swap pass over it. */
  method AppendRanked(cur: seq<MapItem>, item: MapItem) returns (r: seq<MapItem>)
    requires SortedByCost(cur)
    ensures r == InsertStable(cur, item)
  {
    var a := new MapItem[|cur| + 1](j => if 0 <= j < |cur| then cur[j] else item);
    assert a[..|cur|] == cur;
    InsertStep(a);
    r := a[..];
  }

  lemma SpliceFromParts(t: seq<MapItem>, s: seq<MapItem>, x: MapItem, p: nat)
    requires p <= |s| && |t| == |s| + 1
    requires forall k :: 0 <= k < p ==> t[k] == s[k]
    requires t[p] == x
    requires forall k :: p < k < |t| ==> t[k] == s[k - 1]
    ensures t == s[..p] + [x] + s[p..]
  {
  }

  class SuggestionsMap {
    var data: Index

    /** Every list is non-empty and sorted ascending by cost. */
    ghost predicate Valid()
      reads this
    {
      forall k :: k in data ==> data[k] != [] && SortedByCost(data[k])
    }

    constructor ()
      ensures data == map[] && Valid()
    {
      data := map[];
    }

    /** Rebuilds the index from `dtos` and installs it in place of the old one. */
    method Init(dtos: seq<SuggestionDto>)
      modifies this
      ensures data == BuildIndex(dtos)
      ensures Valid()
    {
      var built: Index := map[];
      for n := 0 to |dtos|
        invariant built == BuildIndex(dtos[..n])
      {
        BuildIndexPrefix(dtos, n);
        var dto := dtos[n];
        var item := MapItem(dto.cost, dto.name);
        if dto.id !in built {
          built := built[dto.id := [item]];
        } else {
          BuildIndexSorted(dtos[..n], dto.id);
          var ranked := AppendRanked(built[dto.id], item);
          built := built[dto.id := ranked];
        }
      }
      assert dtos[..|dtos|] == dtos;
      data := built;
      forall k | k in data
        ensures data[k] != [] && SortedByCost(data[k])
      {
        BuildIndexSorted(dtos, k);
      }
    }

    /** One reload: read the dataset, decode it, rebuild. A failure at either
        step leaves the current index as it was. */
    method Load(file: Fetched<Bytes>, decode: Bytes -> Fetched<seq<SuggestionDto>>)
      modifies this
      ensures file.Failed? ==> data == old(data)
      ensures file.Fetched? && decode(file.value).Failed? ==> data == old(data)
      ensures file.Fetched? && decode(file.value).Fetched? ==>
                data == BuildIndex(decode(file.value).value)
      ensures old(Valid()) ==> Valid()
    {
      if file.Failed? {
        return;
      }
      var dtos := decode(file.value);
      if dtos.Failed? {
        return;
      }
      Init(dtos.value);
    }

    /** The ranked suggestions for `key`: each entry's name with its zero-based
        position; none when the key is not indexed. */
    method ListByKey(key: string) returns (r: seq<Suggestion>)
      ensures key !in data ==> r == []
      ensures key in data ==> |r| == |data[key]|
      ensures key in data ==> forall i :: 0 <= i < |r| ==> r[i] == Suggestion(data[key][i].name, i)
    {
      if key !in data {
        return [];
      }
      var items := data[key];
      r := [];
      for i := 0 to |items|
        invariant |r| == i
        invariant forall j :: 0 <= j < i ==> r[j] == Suggestion(items[j].name, j)
      {
        r := r + [Suggestion(items[i].name, i)];
      }
    }
  }

  /** A client of the store: two records for one key come back cheapest
      first, and an unknown key gives an empty list. */
  method LookupClient()
  {
    var store := new SuggestionsMap();
    var dtos := [SuggestionDto("a", 5, "apple"), SuggestionDto("a", 2, "avocado")];
    store.Init(dtos);
    assert dtos[..1] == [dtos[0]] && dtos[..0] == [];
    assert InsertionPoint([MapItem(5, "apple")], MapItem(2, "avocado")) == 0;
    var found := store.ListByKey("a");
    assert found == [Suggestion("avocado", 0), Suggestion("apple", 1)];
    var missing := store.ListByKey("missing");
    assert missing == [];
  }
}
