/**
  The Pokemon record as the remote API returns it, the outcome of one request
  for it, and the pure projections the script renders from it: the stat cards,
  the first ten moves, the type badges, the full search card, a team member's
  card and a comparison column. Also the random-ID draw and the messages the
  user sees when something fails.
*/
module Pokemon {
  import opened Wrappers
  import opened JsText

  /** Largest ID the random draws produce (script.js lines 148 and 354). */
  const MaxId := 1010

  /** `{ name, url }` reference to another API resource. */
  datatype NamedResource = NamedResource(name: string, url: string)

  /** One element of `types`: `{ slot, type: { name, url } }`. */
  datatype TypeSlot = TypeSlot(slot: int, kind: NamedResource)

  /** One element of `stats`: `{ base_stat, effort, stat: { name, url } }`. */
  datatype StatEntry = StatEntry(baseStat: int, effort: int, stat: NamedResource)

  /** One element of `moves`: `{ move: { name, url } }`. */
  datatype MoveEntry = MoveEntry(move: NamedResource)

  /** The fields of a `/pokemon/<id or name>` document the script reads.
      `height` is in decimetres and `weight` in hectograms, as sent. */
  datatype Entity = Entity(
    id: int,
    name: string,
    height: int,
    weight: int,
    types: seq<TypeSlot>,
    stats: seq<StatEntry>,
    moves: seq<MoveEntry>,
    sprite: string)

  /** How one `fetch` settles: a response with its HTTP status and, if its
      body parses as a Pokemon document, that document; or a rejection
      (no response at all). */
  datatype Fetch = Response(status: int, json: Option<Entity>) | NetworkFailure

  /** `response.ok`: a response whose status is in the range 200-299; a
      rejected request has no response to be ok. */
  predicate IsOk(f: Fetch): (ok: bool)
    ensures ok ==> f.Response?
    ensures f.Response? ==> (ok <==> 200 <= f.status < 300)
  {
    f.Response? && 200 <= f.status <= 299
  }

  /** The document a request delivers to the script: present exactly when the
      response is ok and `response.json()` resolves. In every other case the
      script's code throws into its `catch` block. */
  function Received(f: Fetch): (e: Option<Entity>)
    ensures e.Some? <==> IsOk(f) && f.json.Some?
    ensures e.Some? ==> e == f.json
  {
    if IsOk(f) then f.json else None
  }

  /** `Math.floor(u * 1010) + 1` for a value `u` of `Math.random()`. */
  function RandomId(u: real): (id: int)
    requires 0.0 <= u < 1.0
    ensures 1 <= id <= MaxId
  {
    (u * MaxId as real).Floor + 1
  }

  /** Every ID in the range is drawn by some value of `Math.random()`. */
  lemma RandomIdCoversRange(id: int)
    requires 1 <= id <= MaxId
    ensures exists u: real :: 0.0 <= u < 1.0 && RandomId(u) == id
  {
    var u := (id - 1) as real / MaxId as real;
    assert u * MaxId as real == (id - 1) as real;
    assert RandomId(u) == id;
  }

  // ---------------------------------------------------------------- stats

  /** A stat card: its heading and the number under it. */
  datatype StatCard = StatCard(heading: string, value: int)

  /** `stat.stat.name.replace('-', ' ').toUpperCase()`: the first hyphen
      becomes a space, every ASCII letter is upper-cased. */
  function StatLabel(name: string): (heading: string)
    ensures |heading| == |name|
    ensures forall i :: 0 <= i < |name| ==>
      heading[i] == UpperChar(if i == IndexOf(name, '-') then ' ' else name[i])
  {
    Upper(ReplaceFirst(name, '-', ' '))
  }

  /** Because the pattern is a string, not a global regular expression, a
      second hyphen survives into the label. */
  lemma StatLabelKeepsLaterHyphens(name: string, i: int, j: int)
    requires 0 <= i < j < |name| && name[i] == '-' && name[j] == '-'
    ensures StatLabel(name)[j] == '-'
    ensures '-' !in StatLabel(name)[..IndexOf(name, '-') + 1]
  {
    var k := IndexOf(name, '-');
    var heading := StatLabel(name);
    assert name[..k + 1][..k] == name[..k];
    forall p | 0 <= p <= k ensures heading[p] != '-' {
      if p < k {
        assert name[p] == name[..k][p];
      }
    }
  }

  /** A label holds no lower-case letter and has a hyphen only where the stat
      name has one after its first. */
  lemma {:induction false} StatLabelShape(name: string)
    ensures forall i :: 0 <= i < |StatLabel(name)| ==> !('a' <= StatLabel(name)[i] <= 'z')
    ensures Count(StatLabel(name), '-') == if '-' in name then Count(name, '-') - 1 else 0
  {
    UpperHasNoLowerCase(ReplaceFirst(name, '-', ' '));
    ReplaceCounts(name, '-', ' ');
    UpperKeepsHyphens(ReplaceFirst(name, '-', ' '));
  }

  lemma {:induction false} UpperKeepsHyphens(s: string)
    ensures Count(Upper(s), '-') == Count(s, '-')
  {
    if s != [] {
      UpperKeepsHyphens(s[1..]);
      assert Upper(s)[1..] == Upper(s[1..]);
    }
  }

  /** `stats.map(...)` in the stats view and the search card: one card per
      stat, in the order the document lists them, with the base stat
      unchanged. */
  function StatsView(stats: seq<StatEntry>): (cards: seq<StatCard>)
    ensures |cards| == |stats|
    ensures forall i :: 0 <= i < |stats| ==>
      cards[i].heading == StatLabel(stats[i].stat.name) && cards[i].value == stats[i].baseStat
  {
    if stats == [] then []
    else [StatCard(StatLabel(stats[0].stat.name), stats[0].baseStat)] + StatsView(stats[1..])
  }

  // ---------------------------------------------------------------- moves

  /** How many moves the moves view shows (`slice(0, 10)`). */
  const MovesShown := 10

  /** `moves.slice(0, 10).map(m => m.move.name.replace(/-/g, ' '))`: the
      first ten moves (or all of them if there are fewer), in order, with
      every hyphen turned into a space. */
  function MovesView(moves: seq<MoveEntry>): (names: seq<string>)
    ensures |names| == if |moves| < MovesShown then |moves| else MovesShown
    ensures forall i :: 0 <= i < |names| ==> names[i] == ReplaceAll(moves[i].move.name, '-', ' ')
    ensures forall i :: 0 <= i < |names| ==> '-' !in names[i]
  {
    var shown := if |moves| < MovesShown then moves else moves[..MovesShown];
    seq(|shown|, i requires 0 <= i < |shown| => ReplaceAll(shown[i].move.name, '-', ' '))
  }

  /** Moves past the tenth never reach the view. */
  lemma MovesViewIgnoresTail(moves: seq<MoveEntry>, more: seq<MoveEntry>)
    requires |moves| >= MovesShown
    ensures MovesView(moves + more) == MovesView(moves)
  {
  }

  // ---------------------------------------------------------------- types

  /** `types.map(t => t.type.name)`: the type names, verbatim and in the
      order the document lists them. */
  function TypesView(types: seq<TypeSlot>): (names: seq<string>)
    ensures |names| == |types|
    ensures forall i :: 0 <= i < |types| ==> names[i] == types[i].kind.name
  {
    if types == [] then [] else [types[0].kind.name] + TypesView(types[1..])
  }

  // ---------------------------------------------------------------- cards

  /** What `displayPokemonCard` shows after a successful search: number,
      name, sprite, height and weight as sent, the type badges and the stat
      cards. */
  datatype Card = Card(
    id: int, name: string, sprite: string, height: int, weight: int,
    types: seq<string>, stats: seq<StatCard>)

  function PokemonCard(p: Entity): (c: Card)
    ensures c.id == p.id && c.name == p.name && c.sprite == p.sprite
    ensures c.height == p.height && c.weight == p.weight
    ensures c.types == TypesView(p.types) && c.stats == StatsView(p.stats)
  {
    Card(p.id, p.name, p.sprite, p.height, p.weight, TypesView(p.types), StatsView(p.stats))
  }

  /** What `displayTeam` shows for one member. */
  datatype MemberCard = MemberCard(sprite: string, name: string, id: int, primaryType: string)

  /** A member shows its first type only. `pokemon.types[0].type.name` throws
      when `types` is empty, so such a member has no card. */
  function TeamMemberCard(p: Entity): (c: Option<MemberCard>)
    ensures c.Some? <==> p.types != []
    ensures c.Some? ==> c.value.id == p.id && c.value.name == p.name && c.value.sprite == p.sprite
    ensures c.Some? ==> c.value.primaryType == TypesView(p.types)[0]
  {
    if p.types == [] then None else Some(MemberCard(p.sprite, p.name, p.id, p.types[0].kind.name))
  }

  /** What `displayComparison` shows for one side. */
  datatype Column = Column(name: string, sprite: string, id: int, height: int, weight: int)

  function ComparisonColumn(p: Entity): (c: Column)
    ensures c.name == p.name && c.sprite == p.sprite && c.id == p.id
    ensures c.height == p.height && c.weight == p.weight
  {
    Column(p.name, p.sprite, p.id, p.height, p.weight)
  }

  // ------------------------------------------------------------- messages

  /** The failures the user can be shown. */
  datatype Failure =
    | EmptyInput                    // search box empty or blank
    | NotFound(attempted: string)   // search request failed
    | NoPokemon                     // a view used before any search succeeded
    | MissingName                   // comparison with a name not given
    | CompareFailed                 // either comparison request failed
    | TeamFailed                    // any team request failed

  /** Opening words of the message for a failed search. */
  const NotFoundPrefix := "Could not find Pokemon \""

  /** The text `showError` receives for each failure. A failed search names
      the input exactly as the user typed it, not lower-cased. */
  function Message(f: Failure): (m: string)
    ensures f.NotFound? ==>
      |m| > |NotFoundPrefix| + |f.attempted| &&
      m[|NotFoundPrefix|..|NotFoundPrefix| + |f.attempted|] == f.attempted
  {
    match f
    case EmptyInput => "Please enter a Pokemon name or ID!"
    case NotFound(attempted) =>
      NotFoundPrefix + attempted + "\". Check the spelling or try a different name!"
    case NoPokemon => "No Pokemon data available. Search for a Pokemon first!"
    case MissingName => "Please enter both Pokemon names to compare!"
    case CompareFailed => "Could not compare Pokemon. Check that both names are correct!"
    case TeamFailed => "Could not assemble your team. Please try again!"
  }
}
