/** The index built from a dataset: each id maps to the entries of the
    records carrying it, ranked by cost with ties in dataset order. */
module Index {
  import opened Models
  import opened Ranking

  type Index = map<string, seq<MapItem>>

  /** The ids that occur in the dataset. */
  function Ids(dtos: seq<SuggestionDto>): set<string>
  {
    set i | 0 <= i < |dtos| :: dtos[i].id
  }

  /** The entries of the records whose id is `k`, in dataset order. */
  function ItemsFor(dtos: seq<SuggestionDto>, k: string): (r: seq<MapItem>)
    ensures |r| <= |dtos|
  {
    if dtos == [] then []
    else
      var d := dtos[|dtos| - 1];
      ItemsFor(dtos[..|dtos| - 1], k) + (if d.id == k then [ItemOf(d)] else [])
  }

  /** One step of the build loop: a record with a new id starts a one-entry
      list; otherwise its entry is appended to the id's list and moved to its
      insertion point. */
  function AddRecord(m: Index, d: SuggestionDto): Index
  {
    if d.id !in m then m[d.id := [ItemOf(d)]]
    else m[d.id := InsertStable(m[d.id], ItemOf(d))]
  }

  /** The index after processing `dtos` one record at a time, starting from
      an empty map. */
  function BuildIndex(dtos: seq<SuggestionDto>): Index
  {
    if dtos == [] then map[]
    else AddRecord(BuildIndex(dtos[..|dtos| - 1]), dtos[|dtos| - 1])
  }

  lemma BuildIndexPrefix(dtos: seq<SuggestionDto>, n: nat)
    requires n < |dtos|
    ensures BuildIndex(dtos[..n + 1]) == AddRecord(BuildIndex(dtos[..n]), dtos[n])
  {
    assert dtos[..n + 1][..n] == dtos[..n];
  }

  lemma IdsSnoc(dtos: seq<SuggestionDto>)
    requires dtos != []
    ensures Ids(dtos) == Ids(dtos[..|dtos| - 1]) + {dtos[|dtos| - 1].id}
  {
    var init := dtos[..|dtos| - 1];
    assert forall i :: 0 <= i < |init| ==> init[i] == dtos[i];
  }

  /** The index's keys are exactly the dataset's ids. */
  lemma {:induction false} BuildIndexKeys(dtos: seq<SuggestionDto>)
    ensures BuildIndex(dtos).Keys == Ids(dtos)
  {
    if dtos != [] {
      BuildIndexKeys(dtos[..|dtos| - 1]);
      IdsSnoc(dtos);
    }
  }

  /** A record with another id leaves the entry for `k` as it was. */
  lemma BuildIndexSnocOther(dtos: seq<SuggestionDto>, k: string)
    requires dtos != [] && dtos[|dtos| - 1].id != k
    ensures ItemsFor(dtos, k) == ItemsFor(dtos[..|dtos| - 1], k)
    ensures k in BuildIndex(dtos) <==> k in BuildIndex(dtos[..|dtos| - 1])
    ensures k in BuildIndex(dtos) ==> BuildIndex(dtos)[k] == BuildIndex(dtos[..|dtos| - 1])[k]
  {
  }

  /** A record with id `k` inserts its entry into the list for `k`. */
  lemma {:induction false} BuildIndexSnocSame(dtos: seq<SuggestionDto>, k: string)
    requires dtos != [] && dtos[|dtos| - 1].id == k
    requires k in BuildIndex(dtos[..|dtos| - 1]) <==> ItemsFor(dtos[..|dtos| - 1], k) != []
    requires k in BuildIndex(dtos[..|dtos| - 1]) ==>
      BuildIndex(dtos[..|dtos| - 1])[k] == InsertAll(ItemsFor(dtos[..|dtos| - 1], k))
    ensures k in BuildIndex(dtos) && ItemsFor(dtos, k) != []
    ensures BuildIndex(dtos)[k] == InsertAll(ItemsFor(dtos, k))
  {
    var init, d := dtos[..|dtos| - 1], dtos[|dtos| - 1];
    var items0, items := ItemsFor(init, k), ItemsFor(dtos, k);
    assert items == items0 + [ItemOf(d)];
    assert items[..|items| - 1] == items0;
    assert InsertAll(items) == InsertStable(InsertAll(items0), ItemOf(d));
  }

  /** Each id's list is the insertion-built list of that id's entries, and an
      id is present exactly when some record carries it. */
  lemma {:induction false} BuildIndexAt(dtos: seq<SuggestionDto>, k: string)
    ensures k in BuildIndex(dtos) <==> ItemsFor(dtos, k) != []
    ensures k in BuildIndex(dtos) ==> BuildIndex(dtos)[k] == InsertAll(ItemsFor(dtos, k))
  {
    if dtos != [] {
      BuildIndexAt(dtos[..|dtos| - 1], k);
      if dtos[|dtos| - 1].id == k {
        BuildIndexSnocSame(dtos, k);
      } else {
        BuildIndexSnocOther(dtos, k);
      }
    }
  }

  /** Both facts above, for every key. */
  lemma {:induction false} BuildIndexPerKey(dtos: seq<SuggestionDto>)
    ensures BuildIndex(dtos).Keys == Ids(dtos)
    ensures forall k :: k in BuildIndex(dtos) <==> ItemsFor(dtos, k) != []
    ensures forall k :: k in BuildIndex(dtos) ==> BuildIndex(dtos)[k] == InsertAll(ItemsFor(dtos, k))
  {
    BuildIndexKeys(dtos);
    forall k
      ensures k in BuildIndex(dtos) <==> ItemsFor(dtos, k) != []
      ensures k in BuildIndex(dtos) ==> BuildIndex(dtos)[k] == InsertAll(ItemsFor(dtos, k))
    {
      BuildIndexAt(dtos, k);
    }
  }

  /** An empty dataset gives an empty index. */
  lemma {:induction false} BuildIndexEmpty(dtos: seq<SuggestionDto>)
    ensures BuildIndex(dtos) == map[] <==> dtos == []
  {
    if dtos != [] {
      BuildIndexPerKey(dtos);
      assert dtos[0].id in Ids(dtos);
    }
  }

  /** Every list of the index is non-empty and sorted ascending by cost. */
  lemma {:induction false} BuildIndexSorted(dtos: seq<SuggestionDto>, k: string)
    requires k in BuildIndex(dtos)
    ensures BuildIndex(dtos)[k] != []
    ensures SortedByCost(BuildIndex(dtos)[k])
  {
    BuildIndexPerKey(dtos);
    InsertAllSorted(ItemsFor(dtos, k));
  }

  /** The list for `k` is a permutation of the entries of the records whose id
      is `k`: costs and names kept, nothing lost, nothing added. */
  lemma {:induction false} BuildIndexPermutation(dtos: seq<SuggestionDto>, k: string)
    ensures multiset(if k in BuildIndex(dtos) then BuildIndex(dtos)[k] else []) == multiset(ItemsFor(dtos, k))
  {
    BuildIndexPerKey(dtos);
  }

  /** Ties keep dataset order: for every cost, the entries of that cost in the
      list for `k` are the records of id `k` and that cost, in dataset order. */
  lemma {:induction false} BuildIndexStable(dtos: seq<SuggestionDto>, k: string, c: int)
    requires k in BuildIndex(dtos)
    ensures FilterCost(BuildIndex(dtos)[k], c) == FilterCost(ItemsFor(dtos, k), c)
  {
    BuildIndexPerKey(dtos);
    InsertAllStable(ItemsFor(dtos, k), c);
  }

  /** The index is determined by the dataset alone: any index with the
      dataset's ids whose lists are sorted and list each id's entries per cost
      in dataset order is the built one. */
  lemma {:induction false} BuildIndexUnique(dtos: seq<SuggestionDto>, m: Index)
    requires m.Keys == Ids(dtos)
    requires forall k :: k in m ==> SortedByCost(m[k])
    requires forall k, c :: k in m ==> FilterCost(m[k], c) == FilterCost(ItemsFor(dtos, k), c)
    ensures m == BuildIndex(dtos)
  {
    var built := BuildIndex(dtos);
    BuildIndexKeys(dtos);
    forall k | k in m
      ensures m[k] == built[k]
    {
      BuildIndexAt(dtos, k);
      var items := ItemsFor(dtos, k);
      assert forall c :: FilterCost(m[k], c) == FilterCost(items, c);
      InsertAllIsTheStableSort(items, m[k]);
    }
  }
}
