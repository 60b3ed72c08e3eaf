/**
  The page's one piece of state, `currentPokemonData`, and the operations that
  write it (search, random search) or read it (the raw, stats, moves and types
  views). The network is a parameter `api`: the outcome of requesting a given
  path segment. Each request-making operation also returns the path segments it
  requested, so "no request was made" is an empty list.
*/
module Session {
  import opened Wrappers
  import opened JsText
  import opened Pokemon

  /** What a search leaves on the page. */
  datatype SearchOutcome = Shown(card: Card) | SearchFailed(failure: Failure)

  /** What a view button leaves on the page. */
  datatype Page =
    | RawJson(data: Entity)
    | StatsPage(title: string, cards: seq<StatCard>)
    | MovesPage(title: string, moves: seq<string>)
    | TypesPage(title: string, types: seq<string>)
    | ViewFailed(failure: Failure)

  class Explorer {
    /** `currentPokemonData`: the last Pokemon a search delivered. */
    var current: Option<Entity>

    /** The slot starts empty (`let currentPokemonData = null`). */
    constructor ()
      ensures current == None
    {
      current := None;
    }

    /** `searchPokemon(input)`. Blank input is refused before any request;
        otherwise the lower-cased input is requested, and the slot is
        overwritten only when that request delivers a document. */
    method Search(input: string, api: string -> Fetch) returns (outcome: SearchOutcome, requested: seq<string>)
      modifies this
      ensures IsBlank(input) ==>
        requested == [] && outcome == SearchFailed(EmptyInput) && current == old(current)
      ensures !IsBlank(input) ==> requested == [Lower(input)]
      ensures !IsBlank(input) && Received(api(Lower(input))).Some? ==>
        current == Received(api(Lower(input))) && outcome == Shown(PokemonCard(current.value))
      ensures !IsBlank(input) && Received(api(Lower(input))).None? ==>
        current == old(current) && outcome == SearchFailed(NotFound(input))
    {
      if input == [] || Trim(input) == [] {
        return SearchFailed(EmptyInput), [];
      }
      var id := Lower(input);
      requested := [id];
      var response := api(id);
      if !IsOk(response) || response.json.None? {
        return SearchFailed(NotFound(input)), requested;
      }
      var data := response.json.value;
      current := Some(data);
      outcome := Shown(PokemonCard(data));
    }

    /** `getRandomPokemon` with `Math.random()` returning `u`: a search for
        the decimal form of an ID between 1 and 1010, which is never refused
        as blank and is requested as it is. */
    method SearchRandom(u: real, api: string -> Fetch) returns (outcome: SearchOutcome, requested: seq<string>)
      requires 0.0 <= u < 1.0
      modifies this
      ensures requested == [DecimalString(RandomId(u))]
      ensures 1 <= DecimalValue(requested[0]) <= MaxId
      ensures Received(api(requested[0])).Some? ==>
        current == Received(api(requested[0])) && outcome == Shown(PokemonCard(current.value))
      ensures Received(api(requested[0])).None? ==>
        current == old(current) && outcome == SearchFailed(NotFound(requested[0]))
    {
      var id := RandomId(u);
      DecimalStringPassesSearch(id);
      DecimalRoundTrip(id);
      outcome, requested := Search(DecimalString(id), api);
    }

    /** `showRawJSON`: the stored document, or "search first". */
    method ShowRaw() returns (page: Page)
      ensures current.None? <==> page == ViewFailed(NoPokemon)
      ensures current.Some? ==> page == RawJson(current.value)
    {
      if current.None? {
        return ViewFailed(NoPokemon);
      }
      page := RawJson(current.value);
    }

    /** `parseStatsOnly`: one card per stat of the stored Pokemon, or
        "search first". */
    method ShowStats() returns (page: Page)
      ensures current.None? <==> page == ViewFailed(NoPokemon)
      ensures current.Some? ==> page.StatsPage? && page.title == current.value.name + " Stats"
      ensures current.Some? ==> page.cards == StatsView(current.value.stats)
    {
      if current.None? {
        return ViewFailed(NoPokemon);
      }
      var data := current.value;
      page := StatsPage(data.name + " Stats", StatsView(data.stats));
    }

    /** `parseMovesOnly`: the first ten moves of the stored Pokemon, or
        "search first". */
    method ShowMoves() returns (page: Page)
      ensures current.None? <==> page == ViewFailed(NoPokemon)
      ensures current.Some? ==> page.MovesPage? && page.title == current.value.name + " Moves (First 10)"
      ensures current.Some? ==> page.moves == MovesView(current.value.moves)
    {
      if current.None? {
        return ViewFailed(NoPokemon);
      }
      var data := current.value;
      page := MovesPage(data.name + " Moves (First 10)", MovesView(data.moves));
    }

    /** `parseTypesOnly`: the type names of the stored Pokemon, or "search
        first". */
    method ShowTypes() returns (page: Page)
      ensures current.None? <==> page == ViewFailed(NoPokemon)
      ensures current.Some? ==> page.TypesPage? && page.title == current.value.name + " Types"
      ensures current.Some? ==> page.types == TypesView(current.value.types)
    {
      if current.None? {
        return ViewFailed(NoPokemon);
      }
      var data := current.value;
      page := TypesPage(data.name + " Types", TypesView(data.types));
    }
  }

  /** A session in which nothing has been found yet answers every view with
      "search first", a blank search sends nothing and still leaves it empty,
      a search the remote answers fills the slot, and a later failed search
      keeps it. */
  method SessionScenario(p: Entity, found: string, missing: string, api: string -> Fetch)
    requires found != [] && !IsWhitespace(found[0]) && api(Lower(found)) == Response(200, Some(p))
    requires missing != [] && !IsWhitespace(missing[0]) && api(Lower(missing)) == Response(404, None)
  {
    var page := new Explorer();
    var raw := page.ShowRaw();
    assert raw == ViewFailed(NoPokemon);

    var outcome, requested := page.Search(" \t", api);
    assert requested == [] && page.current == None;

    outcome, requested := page.Search(found, api);
    assert requested == [Lower(found)] && page.current == Some(p);

    outcome, requested := page.Search(missing, api);
    assert page.current == Some(p) && outcome == SearchFailed(NotFound(missing));

    var stats := page.ShowStats();
    assert stats.cards == StatsView(p.stats);
  }
}
