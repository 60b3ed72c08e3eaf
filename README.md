# Pokemon explorer core, in Dafny

A model of the logic inside `script.js`, a browser page that looks up Pokemon
in a public REST service. The page keeps one piece of state, the last Pokemon
a search delivered (`currentPokemonData`). Searches write it. The raw, stats,
moves and types views read it. Two further operations keep no state: the
two-Pokemon comparison and the random team of three.

The network is a parameter `api: string -> Fetch`, the outcome of requesting a
given `/pokemon/<segment>`. Every request-making operation returns the segments
it requested, so "no request was made" is the empty list. `Math.random()` values
are parameters too: a real `u` with `0 <= u < 1`, or a sequence of them for the
team loop.

Files:

- `wrappers.dfy` (`Wrappers`): `Option`.
- `text.dfy` (`JsText`): the JavaScript string operations used: `trim`,
  `toLowerCase`/`toUpperCase`, `replace` with a string pattern (first
  occurrence only) and with a global regular expression (every occurrence),
  and `toString` of an ID.
- `pokemon.dfy` (`Pokemon`): the document shape, the outcome of one request,
  the random ID, and the pure projections the page renders. These are the stat
  cards, the first ten moves, the type badges, the search card, the team member
  card and the comparison column. It also holds the failure messages.
- `session.dfy` (`Session`): class `Explorer` with the `current` slot, the
  search, the random search and the four views.
- `comparison.dfy` (`Comparison`): `compareTwoPokemon`.
- `team.dfy` (`Team`): `buildRandomTeam`. It has the rejection-sampling
  `while` loop, the request paths, the `for` loop over the responses, the
  all-or-nothing parse and the team cards.

Two details of the code shape what the model states:

- `replace('-', ' ')` in the stat labels is given a string pattern, so only
  the first hyphen becomes a space (`Pokemon.StatLabelKeepsLaterHyphens`).
  The moves view uses a global regular expression and replaces every hyphen.
- The search box trims its input before the emptiness test. The comparison
  only rejects a missing or empty name, so a name of spaces is handed to
  `fetch` untrimmed (`Comparison.CompareDoesNotTrim`).

## Model

| member | source | states |
|---|---|---|
| JsText.TrimStart | script.js:105 | the result is a suffix of the input; what was cut off is all whitespace; the result is empty or starts with a non-whitespace character |
| JsText.TrimEnd | script.js:105 | the result is a prefix of the input; what was cut off is all whitespace; the result is empty or ends with a non-whitespace character |
| JsText.TrimEmptyIffBlank | script.js:105 | trimming both ends yields the empty string exactly when every character is whitespace |
| JsText.TrimStartEmptyIffBlank | script.js:105 | removing leading whitespace empties exactly the blank strings |
| JsText.TrimEndKeepsLeadingText | script.js:105 | removing trailing whitespace keeps a string that starts with a non-whitespace character non-empty |
| JsText.TrimCutsBlankEnds | script.js:105 | trimming both ends cuts a blank prefix and a blank suffix off the input and keeps the middle unchanged |
| JsText.Trim | script.js:105 | `trim()` is the input with its blank prefix and blank suffix cut off, starts and ends with a non-whitespace character, and is `''` exactly for blank input |
| JsText.Lower | script.js:117 | same length; each character is lower-cased in place |
| JsText.LowerKeepsBlank | script.js:316-317 | lower-casing leaves a name made only of whitespace as it is |
| JsText.Upper | script.js:198 | same length; each character is upper-cased in place |
| JsText.UpperHasNoLowerCase | script.js:198 | an upper-cased string holds no lower-case letter |
| JsText.IndexOf | script.js:198 | -1 exactly when the character is absent; otherwise the position of its first occurrence |
| JsText.ReplaceFirst | script.js:198 | `replace` with a string pattern changes only the first occurrence and keeps the length |
| JsText.ReplaceAll | script.js:237 | `replace` with a global pattern changes every occurrence and keeps the length |
| JsText.ReplaceCounts | script.js:196-238 | after a global replacement no occurrence is left; a first-only replacement removes exactly one when there is one |
| JsText.ReplaceFirstIsReplaceAllWhenUnique | script.js:196-238 | the two kinds of replacement agree on strings with at most one occurrence |
| JsText.DecimalString | script.js:153 | `toString` of an ID is a non-empty string of decimal digits with no leading zero |
| JsText.DecimalRoundTrip | script.js:153 | reading those digits back yields the ID |
| JsText.DecimalStringPassesSearch | script.js:153 | a numeric identifier is never blank and is unchanged by lower-casing, so the random search requests exactly the digits |
| Pokemon.IsOk | script.js:121 | `response.ok`: a response with a status in 200-299; a rejected request is never ok |
| Pokemon.Received | script.js:121-125 | a document reaches the script exactly when the status is in 200-299 and the body parses |
| Pokemon.RandomId | script.js:148 | `Math.floor(Math.random() * 1010) + 1` lies in [1, 1010] |
| Pokemon.RandomIdCoversRange | script.js:148 | every ID in [1, 1010] is drawn by some random value |
| Pokemon.StatLabel | script.js:198 | each label character is the stat name's character, the first hyphen turned into a space, upper-cased |
| Pokemon.StatLabelKeepsLaterHyphens | script.js:198 | a second hyphen survives into the label; none remains up to the first |
| Pokemon.StatLabelShape | script.js:198 | a label holds no lower-case letter and exactly one hyphen fewer than a hyphenated name |
| Pokemon.StatsView | script.js:196-201 | one card per stat, in order, with the label of its name and its base stat unchanged |
| Pokemon.MovesView | script.js:232-238 | min(10, number of moves) names, the leading moves in order, each with every hyphen replaced, none left |
| Pokemon.MovesViewIgnoresTail | script.js:232 | moves after the tenth never affect the view |
| Pokemon.TypesView | script.js:274-279 | the type names verbatim, in the order the document lists them |
| Pokemon.PokemonCard | script.js:393-423 | the search card carries the document's ID, name, sprite, height and weight, its type names as the types view lists them and its stat cards as the stats view builds them |
| Pokemon.TeamMemberCard | script.js:428-435 | a member card exists exactly when the member has a type; it shows the first type only |
| Pokemon.ComparisonColumn | script.js:450-474 | a column carries the name, sprite, ID, height and weight of its document |
| Pokemon.Message | script.js:135 | the failed-search message quotes the input as the user typed it |
| Session.Explorer.constructor | script.js:22 | the slot starts empty |
| Session.Explorer.Search | script.js:102-137 | blank input: no request, error, slot unchanged; otherwise the lower-cased input is requested; the slot takes the document exactly when one is delivered, and otherwise keeps its value and the input is reported not found |
| Session.Explorer.SearchRandom | script.js:143-159 | requests the decimal digits of an ID in [1, 1010] and updates the slot as a search does |
| Session.Explorer.ShowRaw | script.js:165-180 | "search first" exactly when the slot is empty; otherwise the stored document; the slot is not changed |
| Session.Explorer.ShowStats | script.js:186-218 | "search first" exactly when the slot is empty; otherwise the title and the stat cards of the stored document |
| Session.Explorer.ShowMoves | script.js:224-257 | "search first" exactly when the slot is empty; otherwise the title and the first ten moves of the stored document |
| Session.Explorer.ShowTypes | script.js:263-296 | "search first" exactly when the slot is empty; otherwise the title and the type names of the stored document |
| Comparison.Given | script.js:306 | a name counts as given exactly when the prompt returned a non-empty string; a name of spaces counts, since it is not trimmed |
| Comparison.Compare | script.js:302-337 | a missing or empty name: no request; otherwise both lower-cased names are requested, and the comparison is shown exactly when both documents are delivered, with one column per document |
| Comparison.CompareSymmetric | script.js:315-331 | swapping the names swaps the requests and the columns |
| Comparison.CompareAllOrNothing | script.js:321-322 | one side not delivered fails the whole comparison |
| Comparison.CompareDoesNotTrim | script.js:306 | a non-empty name of spaces is handed to `fetch` untrimmed, though `trim` would empty it |
| Team.SetAfter | script.js:351-356 | after any number of draws the set holds distinct IDs in [1, 1010], no more than the draws made |
| Team.SetAfterHoldsDrawn | script.js:355 | the set holds exactly the IDs drawn so far |
| Team.SetAfterExtends | script.js:355-358 | later draws never drop or reorder an ID already in the set |
| Team.GenerateTeamIds | script.js:351-358 | the loop stops at the first draw that completes three; the result is three distinct IDs in [1, 1010], in first-drawn order |
| Team.RequestPaths | script.js:364 | one path per ID, in order, each the canonical decimal form of its ID, reading back as that ID |
| Team.DigitsReadBack | script.js:364 | every ID's request path reads back as that ID |
| Team.DistinctPaths | script.js:364 | distinct IDs are requested under distinct paths |
| Team.AllOk | script.js:368-373 | the scan passes exactly when every response is ok |
| Team.ParseAll | script.js:376-378 | all bodies, in order, exactly when every body parses |
| Team.TeamCards | script.js:428-435 | one card per member, in order, exactly when every member has a type |
| Team.BuildTeam | script.js:346-389 | the IDs are the set the draws have built at the first draw that completes three, three distinct in-range IDs in drawing order, and they are requested; the team is shown exactly when all three documents are delivered and each has a type, and then it shows one member per document in drawing order; otherwise only the team error |

## Left out

- The DOM: `innerHTML` templates, `classList`, `showLoading`/`hideLoading`, the CSS class names keyed by type, event listeners, the input box being cleared, and console logging.
- `prompt()` itself. Its answer is a parameter of type `Option<string>`, with `None` for a cancelled dialog.
- `fetch` and `response.json()`. Each request is the parameter `api`, and a body either is a well-formed document or does not parse. Documents with missing fields (which would throw inside the views' `try` blocks and show their "Could not parse" messages) are not modelled.
- A search whose document arrives but cannot be displayed. `currentPokemonData = data` (script.js:129) runs before `displayPokemonCard` (script.js:130), so a document missing a field the card reads would leave the slot overwritten and still show "Could not find Pokemon". Documents here always have every field, so that case does not arise in the model.
- How `fetch` builds and normalises the request URL. It strips leading and trailing spaces and control characters and deletes tabs and newlines, so a comparison name of spaces reaches the service as a different path. That normalisation is part of `api`.
- `JSON.stringify(currentPokemonData, null, 2)` in the raw view: the model returns the stored document.
- The display of height and weight divided by 10, which is floating-point formatting. Cards carry the integers as sent.
- The concurrency of `Promise.all`, and the race between overlapping searches on the shared slot. Requests are modelled one after another, each outcome fixed by `api`.
- `Math.random` itself. Draws are supplied values in [0, 1).
- Pokemon.RandomId: computes `u * 1010` over the reals, where JavaScript rounds the product to a double first; for a few hundred values of `u` the two floors differ by one. Every value still lies in [1, 1010] and every ID is still reachable.
- The module-level `teamMembers` array (script.js:23), which the script never reads or writes after declaring it.
- `getRandomPokemon`'s own `catch` (script.js:155-158), which cannot be reached because `searchPokemon` catches its own errors.
- Non-string search input (`null`, `undefined`). The model's search takes a string, where `!pokemonName` is the same test as "empty".
- JsText.Lower: models `toLowerCase` on ASCII letters only; other characters are kept as they are, where JavaScript maps the full Unicode case tables.
- JsText.Upper: models `toUpperCase` on ASCII letters only, for the same reason.
- Team.GenerateTeamIds: the source loops until three distinct IDs have been drawn, which ends with probability one. The model takes a finite sequence of draws and requires it to contain three distinct IDs.
