/**
  `compareTwoPokemon`: two names from `prompt` (which yields `null` when the
  dialog is cancelled), both requested, and both documents shown side by side
  only when both requests deliver. The comparison keeps no state.
*/
module Comparison {
  import opened Wrappers
  import opened JsText
  import opened Pokemon

  /** `!name` is false: the prompt was answered with a non-empty string.
      Unlike the search box, a name made of spaces counts as given. */
  predicate Given(name: Option<string>): (ok: bool)
    ensures ok <==> name.Some? && |name.value| > 0
    ensures name.Some? && name.value != [] && Trim(name.value) == [] ==> ok
  {
    name.Some? && name.value != []
  }

  datatype CompareOutcome = Compared(left: Column, right: Column) | CompareError(failure: Failure)

  /** The path segments requested and what the page shows. */
  datatype CompareRun = CompareRun(requested: seq<string>, outcome: CompareOutcome)

  /** A missing name is refused before any request. Otherwise both lower-cased
      names are requested, and the comparison is shown only when both
      responses are ok and both bodies parse; any other combination shows the
      single comparison error and no column. */
  function Compare(first: Option<string>, second: Option<string>, api: string -> Fetch): (run: CompareRun)
    ensures !(Given(first) && Given(second)) ==>
      run.requested == [] && run.outcome == CompareError(MissingName)
    ensures Given(first) && Given(second) ==>
      run.requested == [Lower(first.value), Lower(second.value)]
    ensures run.outcome.Compared? <==>
      Given(first) && Given(second) &&
      Received(api(Lower(first.value))).Some? && Received(api(Lower(second.value))).Some?
    ensures run.outcome.Compared? ==>
      run.outcome.left == ComparisonColumn(Received(api(run.requested[0])).value) &&
      run.outcome.right == ComparisonColumn(Received(api(run.requested[1])).value)
    ensures Given(first) && Given(second) && run.outcome.CompareError? ==>
      run.outcome.failure == CompareFailed
  {
    if !Given(first) || !Given(second) then CompareRun([], CompareError(MissingName))
    else
      var requested := [Lower(first.value), Lower(second.value)];
      var r1 := api(requested[0]);
      var r2 := api(requested[1]);
      if !IsOk(r1) || !IsOk(r2) then CompareRun(requested, CompareError(CompareFailed))
      else if r1.json.None? || r2.json.None? then CompareRun(requested, CompareError(CompareFailed))
      else CompareRun(requested, Compared(ComparisonColumn(r1.json.value), ComparisonColumn(r2.json.value)))
  }

  /** The comparison treats its two sides alike: swapping the names swaps the
      requests and the columns, and leaves an error an error. */
  lemma CompareSymmetric(first: Option<string>, second: Option<string>, api: string -> Fetch)
    ensures Compare(second, first, api).outcome.Compared? <==> Compare(first, second, api).outcome.Compared?
    ensures Compare(first, second, api).outcome.Compared? ==>
      Compare(second, first, api).outcome ==
        Compared(Compare(first, second, api).outcome.right, Compare(first, second, api).outcome.left)
    ensures Given(first) && Given(second) ==>
      Compare(second, first, api).requested ==
        [Compare(first, second, api).requested[1], Compare(first, second, api).requested[0]]
  {
  }

  /** A side that is not found fails the whole comparison, whatever the other
      side delivers. */
  lemma CompareAllOrNothing(first: Option<string>, second: Option<string>, api: string -> Fetch)
    requires Given(first) && Given(second)
    requires Received(api(Lower(first.value))).None? || Received(api(Lower(second.value))).None?
    ensures Compare(first, second, api) ==
      CompareRun([Lower(first.value), Lower(second.value)], CompareError(CompareFailed))
  {
  }

  /** Names are not trimmed: a name of spaces is handed to `fetch` untrimmed,
      where the search box would refuse it. */
  lemma CompareDoesNotTrim(blank: string, other: string, api: string -> Fetch)
    requires blank != [] && IsBlank(blank) && other != []
    ensures Compare(Some(blank), Some(other), api).requested[0] == blank
    ensures Trim(blank) == []
  {
    LowerKeepsBlank(blank);
  }
}
