/**
 * The persistent records of the wagering platform: bets, their legs ("bet details"),
 * accounts, stored scores and transfer records, together with the whole document
 * store as one value.  Field names follow the Mongo schemas; ObjectIds are strings.
 */
module Records {
  import opened Wrappers

  /** The status enum of a leg; the parent bet stores the same six words. */
  datatype Status = Won | Lost | Draw | Pending | Redeem | Failed

  /** `betType` of a parent bet. */
  datatype BetKind = Single | Combo

  /** The locked-in selection of a leg: `bet_on`.  `points` is the spread or total line, when the market has one. */
  datatype BetOn = BetOn(name: string, odds: real, points: Option<real>)

  /** One leg of a wager (a `BetDetail` document); `key` is the id of its parent bet. */
  datatype BetDetail = BetDetail(
    id: string,
    key: string,
    betOn: BetOn,
    eventId: string,
    sportKey: string,
    commenceTime: int,       // milliseconds since the epoch
    category: string,
    bookmaker: string,
    oddsFormat: string,
    status: Status,
    isResolved: bool)

  /** A parent wager (a `Bet` document); `data` lists its legs' ids in placement order. */
  datatype Bet = Bet(
    id: string,
    player: string,
    data: seq<string>,
    amount: real,
    possibleWinningAmount: real,
    status: Status,
    retryCount: int,
    betType: BetKind,
    isResolved: bool)

  /** A `User` or `Player` document, reduced to the fields the core reads and writes. */
  datatype Account = Account(
    username: string,
    role: string,
    credits: real,
    createdBy: string,
    totalRecharge: real,
    totalRedeem: real)

  /** One entrant of a scores record; a `None` score is the JSON `null`. */
  datatype TeamScore = TeamScore(name: string, score: Option<int>)

  /** An event as the results provider reports it. */
  datatype Game = Game(
    id: string,
    commenceTime: int,
    completed: bool,
    homeTeam: string,
    awayTeam: string,
    scores: seq<TeamScore>)

  /** The stored final score of an event (`Score` document). */
  datatype ScoreRecord = ScoreRecord(eventId: string, teams: seq<TeamScore>, completed: bool)

  /** The collection an account lives in. */
  datatype Collection = UserDocs | PlayerDocs

  /** The two kinds of transfer between an agent and a subordinate. */
  datatype TransferKind = RechargeTx | RedeemTx

  /** A `Transaction` document: the party whose credits fell and the party whose credits rose. */
  datatype Transfer = Transfer(
    sender: string,
    receiver: string,
    senderModel: Collection,
    receiverModel: Collection,
    kind: TransferKind,
    amount: real)

  /** The document store, one map per collection keyed by `_id`, and the transaction log in insertion order. */
  datatype Db = Db(
    users: map<string, Account>,
    players: map<string, Account>,
    bets: map<string, Bet>,
    details: map<string, BetDetail>,
    scores: map<string, ScoreRecord>,
    transfers: seq<Transfer>)

  /** `findByIdAndUpdate` of a bet's status and resolved flag: a missing id changes nothing. */
  function SetBetStatus(bets: map<string, Bet>, id: string, status: Status, resolved: bool): (r: map<string, Bet>)
    ensures r.Keys == bets.Keys
    ensures id in bets ==> r[id] == bets[id].(status := status, isResolved := resolved)
    ensures forall other :: other in bets && other != id ==> r[other] == bets[other]
  {
    if id in bets then bets[id := bets[id].(status := status, isResolved := resolved)] else bets
  }

  /** `findByIdAndUpdate` of a bet's resolved flag only. */
  function SetBetResolved(bets: map<string, Bet>, id: string, resolved: bool): (r: map<string, Bet>)
    ensures r.Keys == bets.Keys
    ensures id in bets ==> r[id] == bets[id].(isResolved := resolved)
    ensures forall other :: other in bets && other != id ==> r[other] == bets[other]
  {
    if id in bets then bets[id := bets[id].(isResolved := resolved)] else bets
  }

  /** `findByIdAndUpdate` of a leg's status and resolved flag. */
  function SetDetailStatus(details: map<string, BetDetail>, id: string, status: Status, resolved: bool): (r: map<string, BetDetail>)
    ensures r.Keys == details.Keys
    ensures id in details ==> r[id] == details[id].(status := status, isResolved := resolved)
    ensures forall other :: other in details && other != id ==> r[other] == details[other]
  {
    if id in details then details[id := details[id].(status := status, isResolved := resolved)] else details
  }

  /** Reads a player, changes its credits by `delta` and saves it; a missing player is left alone. */
  function AddCredits(players: map<string, Account>, id: string, delta: real): (r: map<string, Account>)
    ensures r.Keys == players.Keys
    ensures id in players ==> r[id] == players[id].(credits := players[id].credits + delta)
    ensures forall other :: other in players && other != id ==> r[other] == players[other]
  {
    if id in players then players[id := players[id].(credits := players[id].credits + delta)] else players
  }

  /** The legs of `ids` that exist: `BetDetail.find({ _id: { $in: ids } })`, with no order promised. */
  function FoundDetails(details: map<string, BetDetail>, ids: seq<string>): (r: seq<BetDetail>)
    ensures |r| <= |ids|
    ensures forall d :: d in r <==> exists i :: 0 <= i < |ids| && ids[i] in details && details[ids[i]] == d
  {
    if ids == [] then []
    else
      var rest := FoundDetails(details, ids[1..]);
      assert forall i :: 0 < i < |ids| ==> ids[i] == ids[1..][i - 1];
      if ids[0] in details then [details[ids[0]]] + rest else rest
  }

  /** Each leg document is stored under its own `_id`. */
  predicate Keyed(details: map<string, BetDetail>)
  {
    forall k :: k in details ==> details[k].id == k
  }

  /** Every bet's payout is the one it had in `before`, and no bet disappeared. */
  ghost predicate PayoutsKept(before: Db, after: Db)
  {
    forall id :: id in before.bets ==>
      id in after.bets && after.bets[id].possibleWinningAmount == before.bets[id].possibleWinningAmount
  }
}
