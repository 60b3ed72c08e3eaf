/**
  `buildRandomTeam`: three distinct random IDs drawn by rejection into a `Set`,
  one request per ID, and an all-or-nothing join: a single failed request, an
  unreadable body or a member without a type fails the whole team.
*/
module Team {
  import opened Wrappers
  import opened JsText
  import opened Pokemon

  /** Number of members (`teamIds.size < 3`). */
  const TeamSize := 3

  predicate Distinct(xs: seq<int>) {
    forall i, j :: 0 <= i < j < |xs| ==> xs[i] != xs[j]
  }

  /** Values `Math.random()` can return. */
  predicate ValidDraws(draws: seq<real>) {
    forall i :: 0 <= i < |draws| ==> 0.0 <= draws[i] < 1.0
  }

  /** The contents of `teamIds`, in insertion order, after the first `n`
      draws: each draw's ID `Math.floor(u * 1010) + 1` is added, and adding
      an ID the `Set` already holds changes nothing. */
  function SetAfter(draws: seq<real>, n: nat): (ids: seq<int>)
    requires ValidDraws(draws) && n <= |draws|
    ensures Distinct(ids) && |ids| <= n
    ensures forall i :: 0 <= i < |ids| ==> 1 <= ids[i] <= MaxId
  {
    if n == 0 then []
    else
      var before := SetAfter(draws, n - 1);
      var id := RandomId(draws[n - 1]);
      if id in before then before else before + [id]
  }

  /** The set holds exactly the IDs drawn so far. */
  lemma {:induction false} SetAfterHoldsDrawn(draws: seq<real>, n: nat, x: int)
    requires ValidDraws(draws) && n <= |draws|
    ensures x in SetAfter(draws, n) <==> exists k :: 0 <= k < n && RandomId(draws[k]) == x
  {
    if n > 0 {
      SetAfterHoldsDrawn(draws, n - 1, x);
      if RandomId(draws[n - 1]) == x {
        assert x in SetAfter(draws, n);
      }
    }
  }

  /** Later draws never reorder or drop what the set already holds. */
  lemma {:induction false} SetAfterExtends(draws: seq<real>, m: nat, n: nat)
    requires ValidDraws(draws) && m <= n <= |draws|
    ensures |SetAfter(draws, m)| <= |SetAfter(draws, n)|
    ensures SetAfter(draws, m) == SetAfter(draws, n)[..|SetAfter(draws, m)|]
    decreases n - m
  {
    if m < n {
      SetAfterExtends(draws, m, n - 1);
      var s := SetAfter(draws, n - 1);
      assert SetAfter(draws, n)[..|s|] == s;
    }
  }

  /** The `while (teamIds.size < 3)` loop fed with the values `Math.random()`
      returns. It stops at the first draw that completes a set of three, and
      the set it hands on holds three distinct IDs between 1 and 1010, in the
      order they were first drawn. The source loops until that happens; the
      precondition says the draws supplied contain three distinct IDs. */
  method GenerateTeamIds(draws: seq<real>) returns (ids: seq<int>, used: nat)
    requires ValidDraws(draws)
    requires |SetAfter(draws, |draws|)| >= TeamSize
    ensures |ids| == TeamSize && Distinct(ids)
    ensures forall i :: 0 <= i < |ids| ==> 1 <= ids[i] <= MaxId
    ensures 0 < used <= |draws| && ids == SetAfter(draws, used)
    ensures |SetAfter(draws, used - 1)| < TeamSize
  {
    ids, used := [], 0;
    while |ids| < TeamSize
      invariant used <= |draws|
      invariant ids == SetAfter(draws, used)
      invariant |ids| <= TeamSize
      invariant |ids| < TeamSize ==> used < |draws|
      invariant used > 0 ==> |SetAfter(draws, used - 1)| < TeamSize
      decreases |draws| - used
    {
      var id := RandomId(draws[used]);
      if id !in ids {
        ids := ids + [id];
      }
      used := used + 1;
    }
  }

  /** The request path for each ID (`/pokemon/${id}`). */
  function RequestPaths(ids: seq<int>): (paths: seq<string>)
    requires forall i :: 0 <= i < |ids| ==> ids[i] >= 0
    ensures |paths| == |ids|
    ensures forall i :: 0 <= i < |ids| ==> paths[i] == DecimalString(ids[i])
    ensures forall i :: 0 <= i < |ids| ==> IsDigits(paths[i]) && DecimalValue(paths[i]) == ids[i]
  {
    DigitsReadBack(ids);
    seq(|ids|, i requires 0 <= i < |ids| => DecimalString(ids[i]))
  }

  lemma DigitsReadBack(ids: seq<int>)
    requires forall i :: 0 <= i < |ids| ==> ids[i] >= 0
    ensures forall i :: 0 <= i < |ids| ==> DecimalValue(DecimalString(ids[i])) == ids[i]
  {
    forall i | 0 <= i < |ids| ensures DecimalValue(DecimalString(ids[i])) == ids[i] {
      DecimalRoundTrip(ids[i]);
    }
  }

  /** Distinct IDs are requested under distinct paths. */
  lemma DistinctPaths(ids: seq<int>)
    requires forall i :: 0 <= i < |ids| ==> ids[i] >= 0
    requires Distinct(ids)
    ensures forall i, j :: 0 <= i < j < |ids| ==> RequestPaths(ids)[i] != RequestPaths(ids)[j]
  {
  }

  /** The `for (const response of responses)` check: true exactly when every
      response is ok. A rejected `fetch` ends in the same `catch` block, so it
      counts as not ok here. */
  method AllOk(responses: seq<Fetch>) returns (ok: bool)
    ensures ok <==> forall i :: 0 <= i < |responses| ==> IsOk(responses[i])
  {
    for i := 0 to |responses|
      invariant forall k :: 0 <= k < i ==> IsOk(responses[k])
    {
      if !IsOk(responses[i]) {
        return false;
      }
    }
    return true;
  }

  /** `Promise.all(responses.map(res => res.json()))`: every body, in order,
      or nothing at all if any of them does not parse. */
  function ParseAll(responses: seq<Fetch>): (bodies: Option<seq<Entity>>)
    ensures bodies.Some? <==>
      forall i :: 0 <= i < |responses| ==> responses[i].Response? && responses[i].json.Some?
    ensures bodies.Some? ==> |bodies.value| == |responses|
    ensures bodies.Some? ==>
      forall i :: 0 <= i < |responses| ==> Some(bodies.value[i]) == responses[i].json
  {
    if responses == [] then Some([])
    else if responses[0].NetworkFailure? || responses[0].json.None? then None
    else
      match ParseAll(responses[1..])
      case None => None
      case Some(rest) => Some([responses[0].json.value] + rest)
  }

  /** `team.map(...)` in `displayTeam`: one card per member, in order, or
      nothing if any member has no type (reading `types[0].type` throws). */
  function TeamCards(team: seq<Entity>): (cards: Option<seq<MemberCard>>)
    ensures cards.Some? <==> forall i :: 0 <= i < |team| ==> team[i].types != []
    ensures cards.Some? ==> |cards.value| == |team|
    ensures cards.Some? ==>
      forall i :: 0 <= i < |team| ==> Some(cards.value[i]) == TeamMemberCard(team[i])
  {
    if team == [] then Some([])
    else
      match (TeamMemberCard(team[0]), TeamCards(team[1..]))
      case (Some(card), Some(rest)) => Some([card] + rest)
      case _ => None
  }

  datatype TeamOutcome = TeamShown(members: seq<MemberCard>) | TeamError(failure: Failure)

  /** `buildRandomTeam`. Exactly three distinct IDs are requested; the team
      is shown only when every request delivers a document and every member
      has a type, and then it holds exactly those three members in drawing
      order. Otherwise nothing of the team is shown. */
  method BuildTeam(draws: seq<real>, api: string -> Fetch)
    returns (ids: seq<int>, used: nat, requested: seq<string>, outcome: TeamOutcome)
    requires ValidDraws(draws)
    requires |SetAfter(draws, |draws|)| >= TeamSize
    ensures |ids| == TeamSize && Distinct(ids)
    ensures 0 < used <= |draws| && ids == SetAfter(draws, used)
    ensures |SetAfter(draws, used - 1)| < TeamSize
    ensures forall i :: 0 <= i < TeamSize ==> 1 <= ids[i] <= MaxId
    ensures requested == RequestPaths(ids)
    ensures outcome.TeamShown? <==>
      forall i :: 0 <= i < TeamSize ==>
        Received(api(requested[i])).Some? && Received(api(requested[i])).value.types != []
    ensures outcome.TeamShown? ==> |outcome.members| == TeamSize
    ensures outcome.TeamShown? ==>
      forall i :: 0 <= i < TeamSize ==>
        Some(outcome.members[i]) == TeamMemberCard(Received(api(requested[i])).value)
    ensures outcome.TeamError? ==> outcome.failure == TeamFailed
  {
    ids, used := GenerateTeamIds(draws);
    requested := RequestPaths(ids);
    var responses := seq(|requested|, i requires 0 <= i < |requested| => api(requested[i]));
    var ok := AllOk(responses);
    if !ok {
      return ids, used, requested, TeamError(TeamFailed);
    }
    var bodies := ParseAll(responses);
    if bodies.None? {
      return ids, used, requested, TeamError(TeamFailed);
    }
    var team := bodies.value;
    assert forall i :: 0 <= i < TeamSize ==> Received(api(requested[i])) == Some(team[i]);
    var cards := TeamCards(team);
    if cards.None? {
      return ids, used, requested, TeamError(TeamFailed);
    }
    outcome := TeamShown(cards.value);
  }
}
