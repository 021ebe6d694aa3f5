/** The value types of the suggestion service: the records read from the
    dataset, the entries of the index, the lookup results and the request. */
module Models {

  datatype Option<+T> = None | Some(value: T)

  /** The outcome of a check that either passes or fails with a message
      (a Go function that returns an `error`, nil on success). */
  datatype Outcome = Pass | Fail(error: string)

  /** One entry of a key's ranked list (`mapItem`): lower cost ranks first. */
  datatype MapItem = MapItem(cost: int, name: string)

  /** One record of the dataset (`suggestionDTO`); several may share an id. */
  datatype SuggestionDto = SuggestionDto(id: string, cost: int, name: string)

  /** One element of a lookup result: the entry's name and its zero-based rank. */
  datatype Suggestion = Suggestion(text: string, position: int)

  /** The body of a lookup request; `input` is absent when the JSON had no
      (or a null) "input" field. */
  datatype SuggestionRequest = SuggestionRequest(input: Option<string>)
  {
    /** A request is valid exactly when it carries an input key; any string,
        the empty one included, is accepted. */
    function Validate(): (r: Outcome)
      ensures r.Pass? <==> input.Some?
      ensures r.Fail? ==> r.error == "input is empty"
    {
      if input.None? then Fail("input is empty") else Pass
    }
  }

  /** The index entry a record contributes: its cost and name, without its id. */
  function ItemOf(d: SuggestionDto): MapItem
  {
    MapItem(d.cost, d.name)
  }
}
