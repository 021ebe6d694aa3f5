# Suggestion index — a Dafny model

The service answers "which suggestions belong to this key?" from an in-memory
index. The index is rebuilt wholesale from a dataset of `{id, cost, name}`
records whenever a reload succeeds. Each id maps to the list of its records'
`(cost, name)` entries, ranked by ascending cost with equal costs in dataset
order. A lookup returns each entry's name together with its zero-based
position, or an empty list for an unknown key.

The model has four modules:

- `Models` (`models.dfy`): the record, entry, suggestion and request types,
  and request validation.
- `Ranking` (`ranking.dfy`): how one key's list is kept ranked. `InsertStable`
  places a new entry just after the last entry whose cost does not exceed
  it. `InsertAll` folds it over a sequence of entries. The lemmas prove the
  result sorted, a permutation of its input, and stable (per cost, entries
  keep their input order). They also prove that these properties determine
  the list uniquely.
- `Index` (`index.dfy`): `BuildIndex`, the index the build loop produces,
  written as a fold of `AddRecord` (one loop iteration, with the loop's two
  branches) over the records. The lemmas characterise it key by key.
- `Store` (`store.dfy`): the class `SuggestionsMap` with its `data` field and
  the imperative operations. `Init` runs the build loop. `AppendRanked` appends
  an entry to a key's list in a fresh array, and `InsertStep` runs the
  backward swap pass over that array in place. `Load` is one reload step.
  `ListByKey` is the lookup loop.

`Load`'s file read and JSON decoding are parameters. The file's contents
arrive as a `Fetched<Bytes>` value, which is either a failure or bytes. The
decoder is a function from bytes to a `Fetched` record sequence.

## Model

| member | source | states |
|---|---|---|
| `Models.SuggestionRequest.Validate` | main.go:170-176 | a request fails validation exactly when its input is absent, with the message "input is empty"; any present string passes |
| `Ranking.SortedAllPairs` | main.go:150-156 | a list whose neighbours are ordered by cost is ordered across any two positions |
| `Ranking.InsertionPoint` | main.go:152-156 | the position where the swap pass leaves a new entry: every entry after it costs strictly more, and the entry just before it (if any) costs at most as much |
| `Ranking.InsertionPointUnique` | main.go:152-156 | those two properties determine the position uniquely |
| `Ranking.InsertStable` | main.go:150-156 | appending an entry and moving it to its insertion point adds exactly that entry (multiset) and lengthens the list by one |
| `Ranking.SortedSplice` | main.go:152-156 | placing an entry at its insertion point in a sorted list gives a sorted list |
| `Ranking.InsertStableSorted` | main.go:150-156 | inserting into a list sorted by cost keeps it sorted |
| `Ranking.SpliceStable` | main.go:153 | moving an entry in front of entries that all cost strictly more changes no cost's sub-list |
| `Ranking.InsertStableStable` | main.go:153 | the strict comparison never moves an entry past one of equal cost: per cost, the result equals plain appending |
| `Ranking.InsertAll` | main.go:144-156 | the list built by successive insertions holds exactly the inserted entries |
| `Ranking.InsertAllSorted` | main.go:150-156 | the list built by successive insertions is sorted ascending by cost |
| `Ranking.InsertAllStable` | main.go:153 | the list built by successive insertions keeps input order among equal costs |
| `Ranking.SortedDeterminedByCosts` | main.go:150-156 | two sorted lists that agree on their entries per cost, in order, are equal |
| `Ranking.InsertAllIsTheStableSort` | main.go:138-157 | any sorted list with the input's entries, equal costs in input order, is the one insertion builds |
| `Index.BuildIndexKeys` | main.go:137-150 | the built index's key set is exactly the set of record ids |
| `Index.BuildIndexSnocOther` | main.go:138-150 | a record with another id leaves a key's entry unchanged |
| `Index.BuildIndexSnocSame` | main.go:144-156 | a record with id k starts k's list or inserts its entry into it |
| `Index.BuildIndexAt` | main.go:138-157 | a key is present exactly when some record carries it, and its list is the insertion-built list of that key's entries in dataset order |
| `Index.BuildIndexPerKey` | main.go:136-157 | the two facts above for every key at once |
| `Index.BuildIndexEmpty` | main.go:137 | the index is empty exactly when the dataset is empty |
| `Index.BuildIndexSorted` | main.go:150-156 | every list of the built index is non-empty and sorted ascending by cost |
| `Index.BuildIndexPermutation` | main.go:138-150 | the list for k is a permutation of the entries (cost and name) of the records with id k |
| `Index.BuildIndexStable` | main.go:152-156 | for every cost, the list for k lists the records of id k with that cost in dataset order |
| `Index.BuildIndexUnique` | main.go:136-162 | any index with the dataset's ids, sorted lists and dataset order per cost equals the built one, so the index depends on the records alone |
| `Store.InsertStep` | main.go:152-156 | the in-place backward swap pass over an array whose prefix is sorted leaves the array equal to the prefix with the last entry at its insertion point |
| `Store.AppendRanked` | main.go:150-156 | appending an entry to a sorted list and running the swap pass over the new slice yields exactly `InsertStable` of the list and the entry |
| `Store.SuggestionsMap.constructor` | main.go:95-99 | a new store holds the empty index |
| `Store.SuggestionsMap.Init` | main.go:136-162 | the build loop replaces `data` by `BuildIndex(dtos)`, whatever `data` held before, and leaves every list non-empty and sorted |
| `Store.SuggestionsMap.Load` | main.go:101-115 | a failed read or a failed decode leaves `data` unchanged; otherwise `data` becomes the index built from the decoded records; the store's invariant is kept |
| `Store.SuggestionsMap.ListByKey` | main.go:117-134 | an absent key gives an empty list; otherwise the result has one element per entry, element i carrying the entry's name and position i; `data` is not modified |

## Left out

- `withTimeout` (main.go:227-241): it races a goroutine against a timer, and its late write after the deadline is a data race. Sequential Dafny cannot express either.
- The reload goroutine in `main` (main.go:26-31): an endless timer loop. Only its body, one `Load`, is modelled.
- The mutex around reading and replacing `data` (main.go:118-120, 159-161): atomicity against concurrent readers is not expressible in a sequential model. Replacement is a plain field assignment.
- `ioutil.ReadFile` and `json.Unmarshal` in `Load` (main.go:102, 109): these are foreign I/O and decoding, so they are parameters of `Load`. The logging of their errors is not modelled.
- The HTTP layer: `Router.Post` (main.go:70-81), the `Suggest` handler (main.go:42-62), `bind` (main.go:195-204), `writeError` and `writeSuccess` (main.go:206-225), response JSON encoding, flag parsing and `ListenAndServe`. The unused `SuggestionsResponse` type (main.go:178-180) is not modelled either.
- Go's `int` is 64 bits wide. Costs and positions are unbounded integers here. Costs are only compared, and positions are bounded by list lengths, so no wrap-around can occur in the modelled code. Out-of-range costs in the JSON are a decoding failure, which falls inside the abstract decoder.
- `Store.InsertStep` requires a sorted prefix. The Go swap loop never exits early, so on an unsorted prefix it would bubble other entries too. Its only caller, the build loop, always calls it on a sorted list, and `Init` keeps that as a loop invariant.
