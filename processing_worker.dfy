/**
 * The processing-queue worker: settles every queued leg whose event has finished,
 * with up to three attempts per leg, then derives the parent bet's outcome from all
 * of its legs and pays the player when the parent is won or drawn.  Notifications are
 * not modelled.  Exceptions from the document store or Redis are an input: `faults`
 * says how many leading attempts on a leg throw (after the leg is read, before any
 * write), and `scoresFor` gives each sport's scores response, `None` when that
 * request throws.
 */
module ProcessingWorker {
  import opened Wrappers
  import opened Records
  import opened Settlement
  import opened ProcessingQueue
  import opened StoreController

  const MAX_RETRIES: nat := 3

  // ---------------------------------------------------------------- payout and aggregation

  /** `awardWinningsToPlayer`: adds exactly `amount` to one player's credits; a missing player is skipped. */
  function AwardWinningsToPlayer(db: Db, playerId: string, amount: real): (r: Db)
    ensures r.players.Keys == db.players.Keys
    ensures playerId in db.players ==>
      r.players[playerId] == db.players[playerId].(credits := db.players[playerId].credits + amount)
    ensures forall p :: p in db.players && p != playerId ==> r.players[p] == db.players[p]
    ensures r.(players := db.players) == db
  {
    db.(players := AddCredits(db.players, playerId, amount))
  }

  /** The legs `checkAndUpdateParentBet` reads back for a parent. */
  function LegsOf(db: Db, parent: Bet): seq<BetDetail>
  {
    FoundDetails(db.details, parent.data)
  }

  /**
   * `checkAndUpdateParentBet`: writes the parent status of the first matching branch
   * and pays on the won and draw branches only.  Nothing looks at whether the parent
   * was already resolved.
   */
  function CheckAndUpdateParentBet(db: Db, parent: Bet): (r: Db)
    ensures r.details == db.details && r.scores == db.scores && r.users == db.users && r.transfers == db.transfers
    ensures var o := Classify(LegsOf(db, parent));
      match o
      case SettledLost => r.bets == SetBetStatus(db.bets, parent.id, Lost, true) && r.players == db.players
      case SettledFailed => r.bets == SetBetStatus(db.bets, parent.id, Failed, false) && r.players == db.players
      case DrawNotBacked => r.bets == SetBetStatus(db.bets, parent.id, Lost, true) && r.players == db.players
      case SettledWon =>
        r.bets == SetBetStatus(db.bets, parent.id, Won, true) &&
        r.players == AddCredits(db.players, parent.player, parent.possibleWinningAmount)
      case SettledDraw =>
        r.bets == SetBetStatus(db.bets, parent.id, Draw, true) &&
        r.players == AddCredits(db.players, parent.player, parent.possibleWinningAmount)
      case Unresolved => r.bets == SetBetResolved(db.bets, parent.id, false) && r.players == db.players
  {
    var o := Classify(LegsOf(db, parent));
    match o
    case SettledLost => db.(bets := SetBetStatus(db.bets, parent.id, Lost, true))
    case SettledFailed => db.(bets := SetBetStatus(db.bets, parent.id, Failed, false))
    case DrawNotBacked => db.(bets := SetBetStatus(db.bets, parent.id, Lost, true))
    case SettledWon =>
      AwardWinningsToPlayer(db.(bets := SetBetStatus(db.bets, parent.id, Won, true)), parent.player, parent.possibleWinningAmount)
    case SettledDraw =>
      AwardWinningsToPlayer(db.(bets := SetBetStatus(db.bets, parent.id, Draw, true)), parent.player, parent.possibleWinningAmount)
    case Unresolved => db.(bets := SetBetResolved(db.bets, parent.id, false))
  }

  /** Credits move only on the paying branches, and then only the parent's player gains, by exactly the payout. */
  lemma CreditsMoveOnlyOnPayout(db: Db, parent: Bet, p: string)
    requires p in db.players
    ensures var r := CheckAndUpdateParentBet(db, parent);
      r.players[p].credits ==
        db.players[p].credits + (if Pays(Classify(LegsOf(db, parent))) && p == parent.player then parent.possibleWinningAmount else 0.0)
  {
  }

  /**
   * Running the aggregation again on a parent already paid pays it again: the legs are
   * unchanged, so the same branch is taken and the player is credited twice.
   */
  lemma RepeatedAggregationPaysTwice(db: Db, parent: Bet)
    requires Pays(Classify(LegsOf(db, parent))) && parent.player in db.players
    ensures var once := CheckAndUpdateParentBet(db, parent);
      var twice := CheckAndUpdateParentBet(once, parent);
      twice.players[parent.player].credits ==
        db.players[parent.player].credits + 2.0 * parent.possibleWinningAmount
  {
    var once := CheckAndUpdateParentBet(db, parent);
    assert LegsOf(once, parent) == LegsOf(db, parent);
  }

  // ---------------------------------------------------------------- one leg

  /** The `Score.findOneAndUpdate` upsert of the game's final score. */
  function UpsertScore(db: Db, g: Game): (r: Db)
    ensures r.scores == db.scores[g.id := ScoreRecord(g.id, g.scores, g.completed)]
    ensures r.(scores := db.scores) == db
  {
    db.(scores := db.scores[g.id := ScoreRecord(g.id, g.scores, g.completed)])
  }

  /** The catch branch's `findByIdAndUpdate` of the leg to `failed`, unresolved. */
  function MarkFailed(db: Db, legId: string): Db
  {
    db.(details := SetDetailStatus(db.details, legId, Failed, false))
  }

  lemma MarkFailedIdempotent(db: Db, legId: string)
    ensures MarkFailed(MarkFailed(db, legId), legId) == MarkFailed(db, legId)
  {
    assert SetDetailStatus(SetDetailStatus(db.details, legId, Failed, false), legId, Failed, false)
      == SetDetailStatus(db.details, legId, Failed, false);
  }

  /** The leg's parent and player exist and its market gives a final result, so the attempt writes the leg and aggregates. */
  predicate Settles(db: Db, legId: string, g: Game)
    requires legId in db.details
  {
    var leg := db.details[legId];
    var res := ResultFor(leg, g);
    leg.key in db.bets && db.bets[leg.key].player in db.players &&
    res.Some? && res.value != Pending && res.value != Failed
  }

  /**
   * One attempt of `processCompletedBet` that does not throw: the score is upserted;
   * then either it returns early, changing nothing else, or the leg takes its result
   * and is resolved, and the parent is aggregated once.
   */
  function Attempt(db: Db, legId: string, g: Game): (r: Db)
    requires legId in db.details
    ensures r.details.Keys == db.details.Keys && r.bets.Keys == db.bets.Keys && r.players.Keys == db.players.Keys
    ensures r.scores == UpsertScore(db, g).scores
    ensures !Settles(db, legId, g) ==> r == UpsertScore(db, g)
    ensures Settles(db, legId, g) ==>
      var leg := db.details[legId];
      var written := UpsertScore(db, g).(details := db.details[legId := leg.(status := ResultFor(leg, g).value, isResolved := true)]);
      r == CheckAndUpdateParentBet(written, db.bets[leg.key]) &&
      r.details[legId] == leg.(status := ResultFor(leg, g).value, isResolved := true)
  {
    var leg := db.details[legId];
    var db1 := UpsertScore(db, g);
    if !Settles(db, legId, g) then db1
    else
      var result := ResultFor(leg, g).value;
      CheckAndUpdateParentBet(db1.(details := db1.details[legId := leg.(status := result, isResolved := true)]), db.bets[leg.key])
  }

  /** The state after `processCompletedBet`, and whether it rethrew. */
  datatype Outcome = Outcome(db: Db, items: seq<BetDetail>, thrown: bool)

  /**
   * `processCompletedBet` for a leg whose first `faults` attempts throw.  A missing
   * leg returns at once.  Fewer than three faults leave the leg marked failed by the
   * catch branch (if any attempt threw) and end with one attempt that does not throw.
   * Three faults remove the leg's current JSON from the processing list, mark the
   * parent failed and unresolved, and rethrow.
   */
  function CompletedBetSpec(db: Db, items: seq<BetDetail>, legId: string, g: Game, faults: nat): (r: Outcome)
    ensures legId !in db.details ==> r == Outcome(db, items, false)
    ensures r.thrown <==> legId in db.details && faults >= MAX_RETRIES
    ensures r.db.details.Keys == db.details.Keys && r.db.bets.Keys == db.bets.Keys
    ensures r.thrown ==> r.db.details[legId].status == Failed && !r.db.details[legId].isResolved
    ensures r.thrown && db.details[legId].key in db.bets ==>
      r.db.bets[db.details[legId].key].status == Failed && !r.db.bets[db.details[legId].key].isResolved
    ensures r.thrown ==> r.db.players == db.players
    ensures !r.thrown ==> r.items == items
    ensures forall x :: x in r.items ==> x in items
  {
    if legId !in db.details then Outcome(db, items, false)
    else if faults < MAX_RETRIES then
      Outcome(Attempt(if faults == 0 then db else MarkFailed(db, legId), legId, g), items, false)
    else
      var failed := MarkFailed(db, legId);
      var current := failed.details[legId];
      Outcome(failed.(bets := SetBetStatus(failed.bets, current.key, Failed, false)), RemoveAll(items, current), true)
  }

  /** A result of `pending` or `failed` on the first attempt leaves the leg as it was and skips aggregation: only the score is stored. */
  lemma UnsettledResultChangesOnlyScores(db: Db, items: seq<BetDetail>, legId: string, g: Game)
    requires legId in db.details
    requires var res := ResultFor(db.details[legId], g); res.Some? && (res.value == Pending || res.value == Failed)
    ensures var r := CompletedBetSpec(db, items, legId, g, 0);
      r.db == UpsertScore(db, g) && r.db.details[legId] == db.details[legId] && r.db.bets == db.bets && !r.thrown
  {
  }

  /** A final result on the first attempt resolves the leg with it and aggregates the parent exactly once. */
  lemma FinalResultResolvesLeg(db: Db, items: seq<BetDetail>, legId: string, g: Game)
    requires legId in db.details && Settles(db, legId, g)
    ensures var leg := db.details[legId];
      var r := CompletedBetSpec(db, items, legId, g, 0);
      r.db.details[legId] == leg.(status := ResultFor(leg, g).value, isResolved := true) &&
      r.db == CheckAndUpdateParentBet(
        UpsertScore(db, g).(details := db.details[legId := leg.(status := ResultFor(leg, g).value, isResolved := true)]),
        db.bets[leg.key])
  {
  }

  /**
   * `processCompletedBet`: the bounded retry loop.  Each thrown attempt marks the
   * leg failed; the third one gives up as `CompletedBetSpec` describes.
   */
  method ProcessCompletedBet(db: Db, pq: Queue, legId: string, g: Game, faults: nat) returns (r: Db, thrown: bool)
    modifies pq
    ensures Outcome(r, pq.items, thrown) == CompletedBetSpec(db, old(pq.items), legId, g, faults)
  {
    r := db;
    thrown := false;
    var retryCount := 0;
    var current: Option<BetDetail> := None;
    while retryCount < MAX_RETRIES
      invariant 0 <= retryCount < MAX_RETRIES
      invariant retryCount <= faults
      invariant retryCount == 0 ==> r == db
      invariant retryCount > 0 ==> legId in db.details && r == MarkFailed(db, legId)
      invariant pq.items == old(pq.items) && !thrown
      decreases MAX_RETRIES - retryCount
    {
      if legId !in r.details {
        return;
      }
      current := Some(r.details[legId]);
      if retryCount < faults {
        // the attempt throws; the catch branch runs
        MarkFailedIdempotent(db, legId);
        r := MarkFailed(r, legId);
        retryCount := retryCount + 1;
        if retryCount >= MAX_RETRIES {
          var _ := pq.RemoveItem(current.value);
          r := r.(bets := SetBetStatus(r.bets, current.value.key, Failed, false));
          thrown := true;
          return;
        }
      } else {
        var leg := current.value;
        r := UpsertScore(r, g);
        if leg.key !in r.bets {
          return;
        }
        var parent := r.bets[leg.key];
        if parent.player !in r.players {
          return;
        }
        var result := ResultFor(leg, g);
        if result.None? {
          return;
        }
        if result.value == Pending || result.value == Failed {
          return;
        }
        r := r.(details := r.details[legId := leg.(status := result.value, isResolved := true)]);
        r := CheckAndUpdateParentBet(r, parent);
        break;
      }
    }
  }

  // ---------------------------------------------------------------- the sweep

  /** The store, the processing list, and whether a scores request threw and ended the sweep. */
  datatype Sweep = Sweep(db: Db, items: seq<BetDetail>, aborted: bool)

  /** One matched leg inside `processBets`: settle it, mark the parent unresolved if that rethrew, and remove its queue entry either way. */
  function SettleLeg(st: Sweep, bet: BetDetail, g: Game, faults: string -> nat): (r: Sweep)
    ensures bet !in r.items
    ensures forall x :: x in r.items ==> x in st.items
    ensures r.aborted == st.aborted
  {
    var o := CompletedBetSpec(st.db, st.items, bet.id, g, faults(bet.id));
    var db := if o.thrown then o.db.(bets := SetBetResolved(o.db.bets, bet.key, false)) else o.db;
    Sweep(db, RemoveAll(o.items, bet), st.aborted)
  }

  /** The legs processed for one completed game, in order. */
  function SettleLegs(st: Sweep, legs: seq<BetDetail>, g: Game, faults: string -> nat): (r: Sweep)
    ensures forall x :: x in r.items ==> x in st.items
    ensures r.aborted == st.aborted
  {
    if legs == [] then st
    else SettleLeg(SettleLegs(st, legs[..|legs| - 1], g, faults), legs[|legs| - 1], g, faults)
  }

  /** Every leg processed for a game has left the processing list. */
  lemma {:induction false} SettleLegsRemovesAll(st: Sweep, legs: seq<BetDetail>, g: Game, faults: string -> nat)
    ensures forall b :: b in legs ==> b !in SettleLegs(st, legs, g, faults).items
  {
    if legs != [] {
      var prefix := legs[..|legs| - 1];
      SettleLegsRemovesAll(st, prefix, g, faults);
      assert legs == prefix + [legs[|legs| - 1]];
    }
  }

  /** `bets.filter(b => b.event_id === game.id)`. */
  function EventLegs(bets: seq<BetDetail>, eventId: string): (r: seq<BetDetail>)
    ensures forall b :: b in r <==> b in bets && b.eventId == eventId
  {
    if bets == [] then []
    else (if bets[0].eventId == eventId then [bets[0]] else []) + EventLegs(bets[1..], eventId)
  }

  /** The completed games of one sport, in order. */
  function SettleGames(st: Sweep, games: seq<Game>, bets: seq<BetDetail>, faults: string -> nat): (r: Sweep)
    ensures forall x :: x in r.items ==> x in st.items
    ensures r.aborted == st.aborted
  {
    if games == [] then st
    else
      var g := games[|games| - 1];
      SettleLegs(SettleGames(st, games[..|games| - 1], bets, faults), EventLegs(bets, g.id), g, faults)
  }

  /** Every bet on the event of one of the games has left the processing list. */
  lemma {:induction false} SettleGamesRemovesMatched(st: Sweep, games: seq<Game>, bets: seq<BetDetail>, faults: string -> nat,
                                                 g: Game, b: BetDetail)
    requires g in games && b in bets && b.eventId == g.id
    ensures b !in SettleGames(st, games, bets, faults).items
  {
    var prefix := games[..|games| - 1];
    var last := games[|games| - 1];
    var before := SettleGames(st, prefix, bets, faults);
    if g == last {
      SettleLegsRemovesAll(before, EventLegs(bets, g.id), g, faults);
    } else {
      assert games == prefix + [last];
      SettleGamesRemovesMatched(st, prefix, bets, faults, g, b);
    }
  }

  /** One sport of `processBets`: its completed games, or the end of the sweep when its scores request throws. */
  function SportStep(before: Sweep, s: string, bets: seq<BetDetail>,
                     scoresFor: string -> Option<seq<Game>>, faults: string -> nat): (r: Sweep)
    ensures forall x :: x in r.items ==> x in before.items
    ensures before.aborted ==> r == before
    ensures !r.aborted ==>
      !before.aborted && scoresFor(s).Some? && r == SettleGames(before, CompletedGames(scoresFor(s).value), bets, faults)
  {
    if before.aborted then before
    else match scoresFor(s)
      case None => before.(aborted := true)
      case Some(games) => SettleGames(before, CompletedGames(games), bets, faults)
  }

  /** A sport step that did not end the sweep settled every bet on a completed game of that sport. */
  lemma SportStepRemovesMatched(before: Sweep, s: string, bets: seq<BetDetail>,
                                scoresFor: string -> Option<seq<Game>>, faults: string -> nat, g: Game, b: BetDetail)
    requires scoresFor(s).Some? && g in scoresFor(s).value && g.completed
    requires b in bets && b.eventId == g.id
    requires !SportStep(before, s, bets, scoresFor, faults).aborted
    ensures b !in SportStep(before, s, bets, scoresFor, faults).items
  {
    var games := CompletedGames(scoresFor(s).value);
    assert g in games;
    SettleGamesRemovesMatched(before, games, bets, faults, g, b);
  }

  /** The sports of `processBets`, in order. */
  function SettleSports(st: Sweep, sports: seq<string>, bets: seq<BetDetail>,
                        scoresFor: string -> Option<seq<Game>>, faults: string -> nat): (r: Sweep)
    ensures forall x :: x in r.items ==> x in st.items
    ensures st.aborted ==> r == st
  {
    if sports == [] then st
    else SportStep(SettleSports(st, sports[..|sports| - 1], bets, scoresFor, faults), sports[|sports| - 1], bets, scoresFor, faults)
  }

  /** A sweep that ran to the end removed every bet on the event of a completed game of a processed sport. */
  lemma {:induction false} SettleSportsRemovesMatched(st: Sweep, sports: seq<string>, bets: seq<BetDetail>,
                                                  scoresFor: string -> Option<seq<Game>>, faults: string -> nat,
                                                  s: string, g: Game, b: BetDetail)
    requires s in sports && scoresFor(s).Some? && g in scoresFor(s).value && g.completed
    requires b in bets && b.eventId == g.id
    requires !SettleSports(st, sports, bets, scoresFor, faults).aborted
    ensures b !in SettleSports(st, sports, bets, scoresFor, faults).items
  {
    var prefix := sports[..|sports| - 1];
    var last := sports[|sports| - 1];
    var before := SettleSports(st, prefix, bets, scoresFor, faults);
    if s == last {
      SportStepRemovesMatched(before, s, bets, scoresFor, faults, g, b);
    } else {
      assert s in prefix by { assert sports == prefix + [last]; }
      assert !before.aborted;
      SettleSportsRemovesMatched(st, prefix, bets, scoresFor, faults, s, g, b);
    }
  }

  method ProcessLegs(db: Db, pq: Queue, legs: seq<BetDetail>, g: Game, faults: string -> nat) returns (r: Db)
    modifies pq
    ensures Sweep(r, pq.items, false) == SettleLegs(Sweep(db, old(pq.items), false), legs, g, faults)
  {
    r := db;
    var i := 0;
    while i < |legs|
      invariant 0 <= i <= |legs|
      invariant Sweep(r, pq.items, false) == SettleLegs(Sweep(db, old(pq.items), false), legs[..i], g, faults)
    {
      var bet := legs[i];
      assert legs[..i + 1][..i] == legs[..i];
      var thrown;
      r, thrown := ProcessCompletedBet(r, pq, bet.id, g, faults(bet.id));
      if thrown {
        r := r.(bets := SetBetResolved(r.bets, bet.key, false));
      }
      var _ := pq.RemoveItem(bet);
      i := i + 1;
    }
    assert legs[..|legs|] == legs;
  }

  method ProcessGames(db: Db, pq: Queue, games: seq<Game>, bets: seq<BetDetail>, faults: string -> nat) returns (r: Db)
    modifies pq
    ensures Sweep(r, pq.items, false) == SettleGames(Sweep(db, old(pq.items), false), games, bets, faults)
  {
    r := db;
    var i := 0;
    while i < |games|
      invariant 0 <= i <= |games|
      invariant Sweep(r, pq.items, false) == SettleGames(Sweep(db, old(pq.items), false), games[..i], bets, faults)
    {
      var g := games[i];
      assert games[..i + 1][..i] == games[..i];
      var legs := EventLegs(bets, g.id);
      r := ProcessLegs(r, pq, legs, g, faults);
      i := i + 1;
    }
    assert games[..|games|] == games;
  }

  /** `processBets`: for each sport, its completed games, and for each game the bets on its event. */
  method ProcessBets(db: Db, pq: Queue, sports: seq<string>, bets: seq<BetDetail>,
                     scoresFor: string -> Option<seq<Game>>, faults: string -> nat) returns (r: Db, aborted: bool)
    modifies pq
    ensures Sweep(r, pq.items, aborted) == SettleSports(Sweep(db, old(pq.items), false), sports, bets, scoresFor, faults)
  {
    r := db;
    aborted := false;
    var i := 0;
    while i < |sports|
      invariant 0 <= i <= |sports|
      invariant Sweep(r, pq.items, false) == SettleSports(Sweep(db, old(pq.items), false), sports[..i], bets, scoresFor, faults)
    {
      assert sports[..i + 1][..i] == sports[..i];
      var response := scoresFor(sports[i]);
      if response.None? {
        aborted := true;
        AbortedSweepStops(Sweep(db, old(pq.items), false), sports, i, bets, scoresFor, faults);
        return;
      }
      var completed := CompletedGames(response.value);
      r := ProcessGames(r, pq, completed, bets, faults);
      i := i + 1;
    }
    assert sports[..|sports|] == sports;
  }

  /** Once a scores request throws, the remaining sports are skipped. */
  lemma {:induction false} AbortedSweepStops(st: Sweep, sports: seq<string>, i: int, bets: seq<BetDetail>,
                                          scoresFor: string -> Option<seq<Game>>, faults: string -> nat)
    requires 0 <= i < |sports| && scoresFor(sports[i]).None?
    requires !SettleSports(st, sports[..i], bets, scoresFor, faults).aborted
    ensures SettleSports(st, sports, bets, scoresFor, faults) == SettleSports(st, sports[..i], bets, scoresFor, faults).(aborted := true)
    decreases |sports|
  {
    if |sports| == i + 1 {
      assert sports[..|sports| - 1] == sports[..i];
    } else {
      var prefix := sports[..|sports| - 1];
      assert prefix[..i] == sports[..i];
      AbortedSweepStops(st, prefix, i, bets, scoresFor, faults);
    }
  }

  // ---------------------------------------------------------------- collecting the queue

  /** A queue entry with a sport that is no longer pending: `processBetsFromQueue` removes it. */
  predicate Stale(x: BetDetail)
  {
    x.sportKey != "" && x.status != Pending
  }

  /** A queue entry with a sport that is still pending: it is processed. */
  predicate Open(x: BetDetail)
  {
    x.sportKey != "" && x.status == Pending
  }

  /** The `bets` array: the open entries, in queue order. */
  function OpenLegs(items: seq<BetDetail>): (r: seq<BetDetail>)
    ensures forall x :: x in r <==> x in items && Open(x)
  {
    if items == [] then []
    else OpenLegs(items[..|items| - 1]) + (if Open(items[|items| - 1]) then [items[|items| - 1]] else [])
  }

  /** The `sports` set as an array: each sport of the open entries once, in first-appearance order. */
  function SportsOf(bets: seq<BetDetail>): (r: seq<string>)
    ensures forall b :: b in bets ==> b.sportKey in r
    ensures forall s :: s in r ==> exists b :: b in bets && b.sportKey == s
    ensures forall i, j :: 0 <= i < j < |r| ==> r[i] != r[j]
  {
    if bets == [] then []
    else
      var prefix := bets[..|bets| - 1];
      var last := bets[|bets| - 1];
      assert forall b :: b in bets ==> b in prefix || b == last;
      var rest := SportsOf(prefix);
      if last.sportKey in rest then rest else rest + [last.sportKey]
  }

  /** The list with its stale entries gone. */
  function DropStale(items: seq<BetDetail>): (r: seq<BetDetail>)
    ensures forall x :: x in r <==> x in items && !Stale(x)
  {
    if items == [] then [] else (if Stale(items[0]) then [] else [items[0]]) + DropStale(items[1..])
  }

  /** The list after the stale entries among `seen` have been removed (every copy of each). */
  function KeepUnless(items: seq<BetDetail>, seen: seq<BetDetail>): seq<BetDetail>
  {
    if items == [] then []
    else (if Stale(items[0]) && items[0] in seen then [] else [items[0]]) + KeepUnless(items[1..], seen)
  }

  lemma {:induction false} KeepUnlessNone(items: seq<BetDetail>)
    ensures KeepUnless(items, []) == items
  {
    if items != [] {
      KeepUnlessNone(items[1..]);
      assert items == [items[0]] + items[1..];
    }
  }

  lemma RemoveAllCons(y: BetDetail, rest: seq<BetDetail>, x: BetDetail)
    ensures RemoveAll([y] + rest, x) == (if y == x then [] else [y]) + RemoveAll(rest, x)
  {
    assert ([y] + rest)[0] == y;
    assert ([y] + rest)[1..] == rest;
  }

  /** Removing a stale entry extends the removed prefix by it. */
  lemma {:induction false} KeepUnlessStale(items: seq<BetDetail>, seen: seq<BetDetail>, x: BetDetail)
    requires Stale(x)
    ensures RemoveAll(KeepUnless(items, seen), x) == KeepUnless(items, seen + [x])
  {
    if items != [] {
      var y := items[0];
      KeepUnlessStale(items[1..], seen, x);
      var k1 := KeepUnless(items[1..], seen);
      if Stale(y) && y in seen {
        assert KeepUnless(items, seen) == k1;
        assert y in seen + [x];
      } else {
        assert KeepUnless(items, seen) == [y] + k1;
        RemoveAllCons(y, k1, x);
        if y == x {
          assert y in seen + [x];
        } else {
          assert !(Stale(y) && y in seen + [x]);
        }
      }
    }
  }

  /** Skipping an entry that is not stale leaves the list as it was. */
  lemma {:induction false} KeepUnlessFresh(items: seq<BetDetail>, seen: seq<BetDetail>, x: BetDetail)
    requires !Stale(x)
    ensures KeepUnless(items, seen + [x]) == KeepUnless(items, seen)
  {
    if items != [] {
      KeepUnlessFresh(items[1..], seen, x);
      var y := items[0];
      assert (Stale(y) && y in seen + [x]) == (Stale(y) && y in seen);
    }
  }

  lemma {:induction false} KeepUnlessAll(items: seq<BetDetail>, seen: seq<BetDetail>)
    requires forall x :: x in items ==> x in seen
    ensures KeepUnless(items, seen) == DropStale(items)
  {
    if items != [] {
      KeepUnlessAll(items[1..], seen);
    }
  }

  /**
   * The collecting loop of `processBetsFromQueue`: open entries are gathered with
   * their sports, stale ones are removed from the list, entries without a sport are
   * left alone.
   */
  method CollectQueue(pq: Queue) returns (bets: seq<BetDetail>, sports: seq<string>)
    modifies pq
    ensures bets == OpenLegs(old(pq.items)) && sports == SportsOf(bets)
    ensures pq.items == DropStale(old(pq.items))
  {
    var all := pq.GetAll();
    bets := [];
    sports := [];
    var i := 0;
    KeepUnlessNone(all);
    while i < |all|
      invariant 0 <= i <= |all|
      invariant bets == OpenLegs(all[..i]) && sports == SportsOf(bets)
      invariant pq.items == KeepUnless(all, all[..i])
    {
      var bet := all[i];
      CollectStep(all, i);
      if bet.sportKey != "" {
        if bet.status == Pending {
          SportsOfSnoc(bets, bet);
          bets := bets + [bet];
          if bet.sportKey !in sports {
            sports := sports + [bet.sportKey];
          }
        } else {
          var _ := pq.RemoveItem(bet);
        }
      }
      i := i + 1;
    }
    assert all[..|all|] == all;
    KeepUnlessAll(all, all);
  }

  /** How the collected entries and the list extend by one more queue entry. */
  lemma CollectStep(all: seq<BetDetail>, i: int)
    requires 0 <= i < |all|
    ensures OpenLegs(all[..i + 1]) == OpenLegs(all[..i]) + (if Open(all[i]) then [all[i]] else [])
    ensures Stale(all[i]) ==> RemoveAll(KeepUnless(all, all[..i]), all[i]) == KeepUnless(all, all[..i + 1])
    ensures !Stale(all[i]) ==> KeepUnless(all, all[..i + 1]) == KeepUnless(all, all[..i])
  {
    assert all[..i + 1][..i] == all[..i];
    assert all[..i + 1] == all[..i] + [all[i]];
    if Stale(all[i]) {
      KeepUnlessStale(all, all[..i], all[i]);
    } else {
      KeepUnlessFresh(all, all[..i], all[i]);
    }
  }

  lemma SportsOfSnoc(bets: seq<BetDetail>, b: BetDetail)
    ensures SportsOf(bets + [b]) == if b.sportKey in SportsOf(bets) then SportsOf(bets) else SportsOf(bets) + [b.sportKey]
  {
    assert (bets + [b])[..|bets + [b]| - 1] == bets;
  }

  /** `processBetsFromQueue`: collect, then process the open entries if there are any. */
  method ProcessBetsFromQueue(db: Db, pq: Queue, scoresFor: string -> Option<seq<Game>>, faults: string -> nat)
    returns (r: Db, aborted: bool)
    modifies pq
    ensures var bets := OpenLegs(old(pq.items));
      Sweep(r, pq.items, aborted) ==
        SettleSports(Sweep(db, DropStale(old(pq.items)), false), SportsOf(bets), bets, scoresFor, faults)
  {
    var bets, sports := CollectQueue(pq);
    if |bets| > 0 {
      r, aborted := ProcessBets(db, pq, sports, bets, scoresFor, faults);
    } else {
      r, aborted := db, false;
    }
  }

  /**
   * After a sweep the processing list holds only entries it held before, none of them
   * stale, and, unless a scores request threw, none of the open entries whose event is
   * among the completed games of their sport.
   */
  lemma SweepOutcome(db: Db, items: seq<BetDetail>, scoresFor: string -> Option<seq<Game>>, faults: string -> nat)
    ensures var bets := OpenLegs(items);
      var r := SettleSports(Sweep(db, DropStale(items), false), SportsOf(bets), bets, scoresFor, faults);
      (forall x :: x in r.items ==> x in items && !Stale(x)) &&
      (!r.aborted ==>
        forall b, g ::
          (b in items && Open(b) && scoresFor(b.sportKey).Some? && g in scoresFor(b.sportKey).value &&
           g.completed && b.eventId == g.id) ==> b !in r.items)
  {
    var bets := OpenLegs(items);
    var st := Sweep(db, DropStale(items), false);
    var r := SettleSports(st, SportsOf(bets), bets, scoresFor, faults);
    if !r.aborted {
      forall b, g | b in items && Open(b) && scoresFor(b.sportKey).Some? && g in scoresFor(b.sportKey).value &&
          g.completed && b.eventId == g.id
        ensures b !in r.items
      {
        assert b in bets;
        SettleSportsRemovesMatched(st, SportsOf(bets), bets, scoresFor, faults, b.sportKey, g, b);
      }
    }
  }
}
