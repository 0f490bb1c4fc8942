/**
 * The catalog and score transforms the store applies to odds-provider responses:
 * the completed games the settlement sweep consumes, the four lists a sport's odds
 * page is split into, the category grouping of the sports list, event search, the
 * market request for one event, the response cache, and the pruning of rooms that
 * lost their last subscriber.  The HTTP calls themselves are inputs.
 */
module StoreController {
  import opened Wrappers
  import opened Records
  import opened SocketState

  // ---------------------------------------------------------------- scores for processing

  /** `scoresResponse.filter(game => game.completed)`. */
  function CompletedGames(games: seq<Game>): (r: seq<Game>)
    ensures |r| <= |games|
    ensures forall g :: g in r <==> g in games && g.completed
  {
    if games == [] then []
    else (if games[0].completed then [games[0]] else []) + CompletedGames(games[1..])
  }

  /** Games that start after the end of today and are not finished. */
  function FutureGames(games: seq<Game>, endOfToday: int): (r: seq<Game>)
    ensures |r| <= |games|
    ensures forall g :: g in r <==> g in games && g.commenceTime > endOfToday && !g.completed
  {
    if games == [] then []
    else
      var head := if games[0].commenceTime > endOfToday && !games[0].completed then [games[0]] else [];
      head + FutureGames(games[1..], endOfToday)
  }

  datatype ProcessingScores = ProcessingScores(futureUpcomingGames: seq<Game>, completedGames: seq<Game>)

  /** `getScoresForProcessing` over a fetched scores response. */
  function GetScoresForProcessing(games: seq<Game>, endOfToday: int): (r: ProcessingScores)
    ensures forall g :: g in r.completedGames <==> g in games && g.completed
    ensures forall g :: g in r.futureUpcomingGames <==> g in games && g.commenceTime > endOfToday && !g.completed
    ensures forall g :: !(g in r.completedGames && g in r.futureUpcomingGames)
  {
    ProcessingScores(FutureGames(games, endOfToday), CompletedGames(games))
  }

  /** The completed games keep the order of the response: filtering a concatenation filters each part. */
  lemma {:induction false} CompletedGamesAppend(a: seq<Game>, b: seq<Game>)
    ensures CompletedGames(a + b) == CompletedGames(a) + CompletedGames(b)
  {
    if a == [] {
      assert a + b == b;
    } else {
      assert (a + b)[0] == a[0];
      assert (a + b)[1..] == a[1..] + b;
      CompletedGamesAppend(a[1..], b);
    }
  }

  // ---------------------------------------------------------------- getOdds partitions

  /** An event of an odds response; `quoted` says whether a bookmaker was selected for it. */
  datatype OddsGame = OddsGame(id: string, commenceTime: int, homeTeam: string, awayTeam: string, quoted: bool)

  /** An entry of `processedData`: `{}` when no bookmaker was selected, otherwise the listed event. */
  datatype Listing =
    | Unlisted
    | Listed(id: string, commenceTime: int, homeTeam: string, awayTeam: string, completed: bool)

  /** `matchedScore?.completed`, where a missing score reads as not completed. */
  function CompletedById(scores: seq<Game>, id: string): (r: bool)
    ensures r ==> exists i :: 0 <= i < |scores| && scores[i].id == id && scores[i].completed
  {
    if scores == [] then false
    else if scores[0].id == id then scores[0].completed
    else CompletedById(scores[1..], id)
  }

  function Process(g: OddsGame, scores: seq<Game>): Listing
  {
    if !g.quoted then Unlisted
    else Listed(g.id, g.commenceTime, g.homeTeam, g.awayTeam, CompletedById(scores, g.id))
  }

  /** `processedData`: one entry per event of the odds response, in order. */
  function ProcessedData(odds: seq<OddsGame>, scores: seq<Game>): (r: seq<Listing>)
    ensures |r| == |odds|
    ensures forall i :: 0 <= i < |odds| ==> r[i] == Process(odds[i], scores)
  {
    if odds == [] then [] else [Process(odds[0], scores)] + ProcessedData(odds[1..], scores)
  }

  predicate IsLive(x: Listing, now: int)
  {
    x.Listed? && x.commenceTime <= now && !x.completed
  }

  predicate IsTodayUpcoming(x: Listing, now: int, startOfToday: int, endOfToday: int)
  {
    x.Listed? && x.commenceTime > now && startOfToday <= x.commenceTime <= endOfToday && !x.completed
  }

  predicate IsFutureUpcoming(x: Listing, endOfToday: int)
  {
    x.Listed? && x.commenceTime > endOfToday && !x.completed
  }

  predicate IsCompleted(x: Listing)
  {
    x.Listed? && x.completed
  }

  /** `Array.prototype.filter` on listings. */
  function Filter(xs: seq<Listing>, p: Listing -> bool): (r: seq<Listing>)
    ensures |r| <= |xs|
    ensures forall x :: x in r <==> x in xs && p(x)
  {
    if xs == [] then [] else (if p(xs[0]) then [xs[0]] else []) + Filter(xs[1..], p)
  }

  datatype OddsView = OddsView(live: seq<Listing>, todaysUpcoming: seq<Listing>, futureUpcoming: seq<Listing>, completed: seq<Listing>)

  /** The four lists of `getOdds`. */
  function GetOdds(odds: seq<OddsGame>, scores: seq<Game>, now: int, startOfToday: int, endOfToday: int): (r: OddsView)
    ensures var data := ProcessedData(odds, scores);
      (forall x :: x in r.live <==> x in data && IsLive(x, now)) &&
      (forall x :: x in r.todaysUpcoming <==> x in data && IsTodayUpcoming(x, now, startOfToday, endOfToday)) &&
      (forall x :: x in r.futureUpcoming <==> x in data && IsFutureUpcoming(x, endOfToday)) &&
      (forall x :: x in r.completed <==> x in data && IsCompleted(x))
  {
    var data := ProcessedData(odds, scores);
    OddsView(
      Filter(data, x => IsLive(x, now)),
      Filter(data, x => IsTodayUpcoming(x, now, startOfToday, endOfToday)),
      Filter(data, x => IsFutureUpcoming(x, endOfToday)),
      Filter(data, x => IsCompleted(x)))
  }

  /**
   * While the clock is inside today, every listed event lands in exactly one of the four
   * lists, and an event without a bookmaker in none.
   */
  lemma PartitionExact(x: Listing, now: int, startOfToday: int, endOfToday: int)
    requires startOfToday <= now <= endOfToday
    ensures x.Listed? ==>
      (if IsLive(x, now) then 1 else 0) + (if IsTodayUpcoming(x, now, startOfToday, endOfToday) then 1 else 0) +
      (if IsFutureUpcoming(x, endOfToday) then 1 else 0) + (if IsCompleted(x) then 1 else 0) == 1
    ensures x.Unlisted? ==>
      !IsLive(x, now) && !IsTodayUpcoming(x, now, startOfToday, endOfToday) && !IsFutureUpcoming(x, endOfToday) && !IsCompleted(x)
  {
  }

  // ---------------------------------------------------------------- searchEvent

  /** `toLowerCase` on the ASCII letters. */
  function Lower(s: string): (r: string)
    ensures |r| == |s|
    ensures forall i :: 0 <= i < |s| ==> r[i] == (if 'A' <= s[i] <= 'Z' then (s[i] as int + 32) as char else s[i])
  {
    if s == [] then [] else [if 'A' <= s[0] <= 'Z' then (s[0] as int + 32) as char else s[0]] + Lower(s[1..])
  }

  /** `q` occurs in `s` at position `i`. */
  predicate OccursAt(s: string, q: string, i: int)
  {
    0 <= i <= |s| - |q| && s[i..i + |q|] == q
  }

  /** `s.includes(q)`. */
  predicate Includes(s: string, q: string)
  {
    exists i :: 0 <= i <= |s| - |q| && OccursAt(s, q, i)
  }

  predicate MatchesQuery(x: Listing, query: string)
  {
    x.Listed? && (Includes(Lower(x.homeTeam), Lower(query)) || Includes(Lower(x.awayTeam), Lower(query)))
  }

  /** The events of `xs` whose home or away team contains the query, in order. */
  function Matching(xs: seq<Listing>, query: string): (r: seq<Listing>)
    ensures |r| <= |xs|
    ensures forall x :: x in r <==> x in xs && MatchesQuery(x, query)
  {
    if xs == [] then []
    else Matching(xs[..|xs| - 1], query) + (if MatchesQuery(xs[|xs| - 1], query) then [xs[|xs| - 1]] else [])
  }

  /** One `forEach` of `searchEvent`, pushing the matching events. */
  method FilterEvents(xs: seq<Listing>, query: string) returns (r: seq<Listing>)
    ensures r == Matching(xs, query)
    ensures forall x :: x in r <==> x in xs && MatchesQuery(x, query)
  {
    r := [];
    var i := 0;
    while i < |xs|
      invariant 0 <= i <= |xs|
      invariant r == Matching(xs[..i], query)
    {
      assert xs[..i + 1][..i] == xs[..i];
      if MatchesQuery(xs[i], query) {
        r := r + [xs[i]];
      }
      i := i + 1;
    }
    assert xs[..|xs|] == xs;
  }

  /** The answer of `searchEvent`: the odds view itself for an empty query, or three filtered lists without the completed games. */
  datatype SearchResult = AllEvents(view: OddsView) | Found(live: seq<Listing>, todaysUpcoming: seq<Listing>, futureUpcoming: seq<Listing>)

  method SearchEvent(events: OddsView, query: string) returns (r: SearchResult)
    ensures query == "" ==> r == AllEvents(events)
    ensures query != "" ==>
      (r.Found? &&
       r.live == Matching(events.live, query) &&
       r.todaysUpcoming == Matching(events.todaysUpcoming, query) &&
       r.futureUpcoming == Matching(events.futureUpcoming, query))
  {
    if query == "" {
      return AllEvents(events);
    }
    var live := FilterEvents(events.live, query);
    var today := FilterEvents(events.todaysUpcoming, query);
    var future := FilterEvents(events.futureUpcoming, query);
    r := Found(live, today, future);
  }

  /** Search is case-insensitive: a query and its lower-case form select the same events. */
  lemma {:induction false} MatchingIgnoresCase(xs: seq<Listing>, query: string)
    ensures Matching(xs, Lower(query)) == Matching(xs, query)
  {
    LowerIdempotent(query);
    if xs != [] {
      MatchingIgnoresCase(xs[..|xs| - 1], query);
    }
  }

  lemma LowerIdempotent(s: string)
    ensures Lower(Lower(s)) == Lower(s)
  {
  }

  // ---------------------------------------------------------------- categories

  /** An entry of the sports list. */
  datatype Sport = Sport(key: string, group: string, title: string, active: bool, hasOutrights: bool)

  /** The `{title, key, has_outrights, active}` record pushed for a sport. */
  datatype SportEntry = SportEntry(title: string, key: string, hasOutrights: bool, active: bool)

  datatype Category = Category(category: string, events: seq<SportEntry>)

  const ALL: string := "All"

  function EntryOf(s: Sport): SportEntry
  {
    SportEntry(s.title, s.key, s.hasOutrights, s.active)
  }

  /** The entries pushed onto `groupedData["All"]`: one per sport, two for a sport whose own group is `All`. */
  function AllEntries(sports: seq<Sport>): (r: seq<SportEntry>)
    ensures |r| >= |sports|
  {
    if sports == [] then []
    else
      var last := sports[|sports| - 1];
      AllEntries(sports[..|sports| - 1]) + (if last.group == ALL then [EntryOf(last), EntryOf(last)] else [EntryOf(last)])
  }

  /** The entries of the sports whose group is `g`, in input order. */
  function GroupEntries(sports: seq<Sport>, g: string): (r: seq<SportEntry>)
    ensures forall e :: e in r <==> exists i :: 0 <= i < |sports| && sports[i].group == g && EntryOf(sports[i]) == e
  {
    if sports == [] then []
    else
      var last := sports[|sports| - 1];
      var rest := GroupEntries(sports[..|sports| - 1], g);
      assert forall i :: 0 <= i < |sports| - 1 ==> sports[..|sports| - 1][i] == sports[i];
      rest + (if last.group == g then [EntryOf(last)] else [])
  }

  /** The keys of `groupedData` after `All`: each group, other than `All`, at its first appearance. */
  function Groups(sports: seq<Sport>): (r: seq<string>)
    ensures forall g :: g in r <==> g != ALL && exists i :: 0 <= i < |sports| && sports[i].group == g
    ensures forall i, j :: 0 <= i < j < |r| ==> r[i] != r[j]
  {
    if sports == [] then []
    else
      var last := sports[|sports| - 1];
      var rest := Groups(sports[..|sports| - 1]);
      assert forall i :: 0 <= i < |sports| - 1 ==> sports[..|sports| - 1][i] == sports[i];
      if last.group == ALL || last.group in rest then rest else rest + [last.group]
  }

  /** The result of `getCategories`: `All` first with every sport, then one category per distinct group. */
  function Categories(sports: seq<Sport>): (r: seq<Category>)
    ensures |r| == 1 + |Groups(sports)|
    ensures r[0] == Category(ALL, AllEntries(sports))
    ensures forall k :: 1 <= k < |r| ==> r[k] == Category(Groups(sports)[k - 1], GroupEntries(sports, Groups(sports)[k - 1]))
  {
    var groups := Groups(sports);
    [Category(ALL, AllEntries(sports))] + seq(|groups|, k requires 0 <= k < |groups| => Category(groups[k], GroupEntries(sports, groups[k])))
  }

  /** With no sport grouped as `All`, the `All` category lists every sport exactly once, in input order. */
  lemma {:induction false} AllListsEverySport(sports: seq<Sport>)
    requires forall i :: 0 <= i < |sports| ==> sports[i].group != ALL
    ensures |AllEntries(sports)| == |sports|
    ensures forall i :: 0 <= i < |sports| ==> AllEntries(sports)[i] == EntryOf(sports[i])
  {
    if sports != [] {
      AllListsEverySport(sports[..|sports| - 1]);
    }
  }

  /** How the `All` list and the group order extend when one more sport is pushed. */
  lemma CategoriesStep(sports: seq<Sport>, i: int)
    requires 0 <= i < |sports|
    ensures var p := sports[..i];
      var s := sports[i];
      Groups(sports[..i + 1]) == (if s.group == ALL || s.group in Groups(p) then Groups(p) else Groups(p) + [s.group]) &&
      AllEntries(sports[..i + 1]) == AllEntries(p) + (if s.group == ALL then [EntryOf(s), EntryOf(s)] else [EntryOf(s)]) &&
      (s.group != ALL && s.group !in Groups(p) ==> GroupEntries(p, s.group) == [])
  {
    var p := sports[..i];
    var g := sports[i].group;
    if g != ALL && g !in Groups(p) && GroupEntries(p, g) != [] {
      assert GroupEntries(p, g)[0] in GroupEntries(p, g);
      assert false;
    }
    assert sports[..i + 1][..i] == sports[..i];
    assert sports[..i + 1][i] == sports[i];
  }

  /** How one group's list extends when one more sport is pushed. */
  lemma GroupStep(sports: seq<Sport>, i: int, g: string)
    requires 0 <= i < |sports|
    ensures GroupEntries(sports[..i + 1], g) == GroupEntries(sports[..i], g) + (if sports[i].group == g then [EntryOf(sports[i])] else [])
  {
    assert sports[..i + 1][..i] == sports[..i];
    assert sports[..i + 1][i] == sports[i];
  }

  /** The keys of a filled `groupedData`, `All` first, mapped to their categories. */
  lemma CategoriesFromGroups(sports: seq<Sport>, grouped: map<string, seq<SportEntry>>)
    requires ALL in grouped && grouped[ALL] == AllEntries(sports)
    requires forall g :: g in Groups(sports) ==> g in grouped && grouped[g] == GroupEntries(sports, g)
    ensures var groups := Groups(sports);
      [Category(ALL, grouped[ALL])] + seq(|groups|, k requires 0 <= k < |groups| => Category(groups[k], grouped[groups[k]]))
      == Categories(sports)
  {
    var groups := Groups(sports);
    var r := [Category(ALL, grouped[ALL])] + seq(|groups|, k requires 0 <= k < |groups| => Category(groups[k], grouped[groups[k]]));
    var c := Categories(sports);
    assert |r| == |c|;
    forall k | 0 <= k < |r|
      ensures r[k] == c[k]
    {
      if k > 0 {
        assert groups[k - 1] in groups;
      }
    }
  }

  /** `getCategories` over a fetched sports list: fills `groupedData` one sport at a time, then lists its keys. */
  method GetCategories(sports: seq<Sport>) returns (r: seq<Category>)
    ensures r == Categories(sports)
  {
    var grouped: map<string, seq<SportEntry>> := map[ALL := []];
    var i := 0;
    while i < |sports|
      invariant 0 <= i <= |sports|
      invariant forall g :: g in grouped <==> g == ALL || g in Groups(sports[..i])
      invariant grouped[ALL] == AllEntries(sports[..i])
      invariant forall g :: g in Groups(sports[..i]) ==> grouped[g] == GroupEntries(sports[..i], g)
    {
      var s := sports[i];
      CategoriesStep(sports, i);
      if s.group !in grouped {
        grouped := grouped[s.group := []];
      }
      grouped := grouped[s.group := grouped[s.group] + [EntryOf(s)]];
      grouped := grouped[ALL := grouped[ALL] + [EntryOf(s)]];
      forall g | g in Groups(sports[..i + 1])
        ensures grouped[g] == GroupEntries(sports[..i + 1], g)
      {
        GroupStep(sports, i, g);
      }
      i := i + 1;
    }
    assert sports[..|sports|] == sports;
    CategoriesFromGroups(sports, grouped);
    var groups := Groups(sports);
    r := [Category(ALL, grouped[ALL])] + seq(|groups|, k requires 0 <= k < |groups| => Category(groups[k], grouped[groups[k]]));
  }

  /** `getCategorySports`: `all` in any letter case selects every active sport, any other value the active sports of that group. */
  function GetCategorySports(sports: seq<Sport>, category: string): (r: seq<Sport>)
    ensures |r| <= |sports|
    ensures Lower(category) == "all" ==> forall s :: s in r <==> s in sports && s.active
    ensures Lower(category) != "all" ==> forall s :: s in r <==> s in sports && s.group == category && s.active
  {
    if sports == [] then []
    else
      var s := sports[0];
      var keep := s.active && (Lower(category) == "all" || s.group == category);
      (if keep then [s] else []) + GetCategorySports(sports[1..], category)
  }

  // ---------------------------------------------------------------- getEventOdds

  /** The first sport of the flattened categories whose key is `sport`. */
  function FindSport(entries: seq<SportEntry>, sport: string): (r: Option<SportEntry>)
    ensures r.Some? ==> r.value in entries && r.value.key == sport
    ensures r.None? <==> forall e :: e in entries ==> e.key != sport
  {
    if entries == [] then None
    else if entries[0].key == sport then Some(entries[0])
    else FindSport(entries[1..], sport)
  }

  function Flatten(categories: seq<Category>): seq<SportEntry>
  {
    if categories == [] then [] else categories[0].events + Flatten(categories[1..])
  }

  datatype OddsRequest = OddsRequest(markets: string, regions: string)

  /** The market and region arguments `getEventOdds` sends for a sport. */
  function EventOddsRequest(categories: seq<Category>, sport: string): (r: OddsRequest)
    ensures r.regions == "us"
    ensures var found := FindSport(Flatten(categories), sport);
      r.markets == (if found.Some? && found.value.hasOutrights then "outrights" else "h2h,spreads,totals")
  {
    var found := FindSport(Flatten(categories), sport);
    OddsRequest(if found.Some? && found.value.hasOutrights then "outrights" else "h2h,spreads,totals", "us")
  }

  // ---------------------------------------------------------------- the response cache

  /** The cache lifetime `fetchFromApi` sets, in seconds. */
  function CacheDuration(cacheKey: string): (r: nat)
    ensures r == (if cacheKey == "sportsList" then 43200 else 30)
  {
    if cacheKey == "sportsList" then 43200 else 30
  }

  datatype CacheEntry = CacheEntry(value: string, ttl: nat)

  /** The Redis keys `fetchFromApi` reads and writes; a value is the JSON text of a response. */
  class ResponseCache {
    var entries: map<string, CacheEntry>

    constructor()
      ensures entries == map[]
    {
      entries := map[];
    }

    /**
     * `fetchFromApi`: a non-empty cached value is returned without fetching; otherwise
     * `fetched` is the provider's answer (`None` when the request throws), which is
     * cached under its lifetime and returned.
     */
    method FetchFromApi(cacheKey: string, fetched: Option<string>) returns (r: Result<string, string>)
      modifies this
      ensures cacheKey in old(entries) && old(entries)[cacheKey].value != "" ==>
        r == Ok(old(entries)[cacheKey].value) && entries == old(entries)
      ensures !(cacheKey in old(entries) && old(entries)[cacheKey].value != "") && fetched.None? ==>
        r.Err? && entries == old(entries)
      ensures !(cacheKey in old(entries) && old(entries)[cacheKey].value != "") && fetched.Some? ==>
        r == Ok(fetched.value) && entries == old(entries)[cacheKey := CacheEntry(fetched.value, CacheDuration(cacheKey))]
    {
      if cacheKey in entries && entries[cacheKey].value != "" {
        return Ok(entries[cacheKey].value);
      }
      if fetched.None? {
        return Err("Error Fetching Data");
      }
      entries := entries[cacheKey := CacheEntry(fetched.value, CacheDuration(cacheKey))];
      r := Ok(fetched.value);
    }
  }

  // ---------------------------------------------------------------- rooms

  /** `removeInactiveRooms`: deletes every active room the socket adapter no longer has, and returns the set. */
  method RemoveInactiveRooms(reg: Registry, currentRooms: set<string>) returns (r: set<string>)
    modifies reg
    ensures reg.activeRooms == old(reg.activeRooms) * currentRooms
    ensures r == reg.activeRooms
    ensures reg.eventRooms == old(reg.eventRooms) && reg.playerBets == old(reg.playerBets)
    ensures reg.globalEventRooms == old(reg.globalEventRooms)
  {
    var rest := reg.activeRooms;
    ghost var before := reg.activeRooms;
    while rest != {}
      invariant rest <= before
      invariant reg.activeRooms == before - (set x | x in before - rest && x !in currentRooms)
      invariant reg.eventRooms == old(reg.eventRooms) && reg.playerBets == old(reg.playerBets)
      invariant reg.globalEventRooms == old(reg.globalEventRooms)
      decreases rest
    {
      var room :| room in rest;
      if room !in currentRooms {
        reg.activeRooms := reg.activeRooms - {room};
      }
      rest := rest - {room};
    }
    r := reg.activeRooms;
  }
}
