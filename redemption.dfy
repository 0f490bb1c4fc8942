/**
 * Early redemption of a pending wager: `redeemBetInfo` quotes what redeeming would
 * pay, `redeemPlayerBet` performs it.  Both walk the bet's legs in order, multiplying
 * the locked-in odds into `totalOldOdds` and the bookmaker's current price into
 * `totalNewOdds`, and stop at the first leg whose bookmaker is no longer quoted.
 * The odds feed is the parameter `quotes`: the bookmakers listed for a leg's event.
 */
module Redemption {
  import opened Wrappers
  import opened Records
  import opened Utils
  import opened WaitingQueue
  import opened BetController

  /** One price of a market, one market of a bookmaker, one bookmaker of an event. */
  datatype Outcome = Outcome(name: string, price: real)
  datatype Market = Market(key: string, outcomes: seq<Outcome>)
  datatype Bookmaker = Bookmaker(key: string, markets: seq<Market>)

  /** `bookmakers.find(item => item.key === key)`. */
  function FindBookmaker(bs: seq<Bookmaker>, key: string): Option<Bookmaker>
  {
    if bs == [] then None else if bs[0].key == key then Some(bs[0]) else FindBookmaker(bs[1..], key)
  }

  /** `markets.find(item => item.key === category)`. */
  function FindMarket(ms: seq<Market>, key: string): Option<Market>
  {
    if ms == [] then None else if ms[0].key == key then Some(ms[0]) else FindMarket(ms[1..], key)
  }

  /** `outcomes.find(item => item.name === name)`. */
  function FindOutcome(os: seq<Outcome>, name: string): Option<Outcome>
  {
    if os == [] then None else if os[0].name == name then Some(os[0]) else FindOutcome(os[1..], name)
  }

  /** The bookmaker search finds the first bookmaker with the key, and nothing when none has it. */
  lemma {:induction false} FindBookmakerFirst(bs: seq<Bookmaker>, key: string)
    ensures FindBookmaker(bs, key).None? <==> forall i :: 0 <= i < |bs| ==> bs[i].key != key
    ensures FindBookmaker(bs, key).Some? ==>
              exists i :: 0 <= i < |bs| && bs[i] == FindBookmaker(bs, key).value && bs[i].key == key &&
                          (forall k :: 0 <= k < i ==> bs[k].key != key)
  {
    if bs != [] && bs[0].key != key {
      FindBookmakerFirst(bs[1..], key);
      if FindBookmaker(bs, key).Some? {
        var i :| 0 <= i < |bs[1..]| && bs[1..][i] == FindBookmaker(bs, key).value &&
          bs[1..][i].key == key && (forall k :: 0 <= k < i ==> bs[1..][k].key != key);
        assert bs[i + 1] == bs[1..][i];
        assert forall k :: 0 < k < i + 1 ==> bs[k] == bs[1..][k - 1];
      }
    }
  }

  /** The outcome search finds an outcome of the selection's name exactly when the market lists one. */
  lemma {:induction false} FindOutcomeFound(os: seq<Outcome>, name: string)
    ensures FindOutcome(os, name).None? <==> forall i :: 0 <= i < |os| ==> os[i].name != name
    ensures FindOutcome(os, name).Some? ==> FindOutcome(os, name).value in os && FindOutcome(os, name).value.name == name
  {
    if os != [] && os[0].name != name {
      FindOutcomeFound(os[1..], name);
    }
  }

  /**
   * What the lookup of a leg's current price gives: the bookmaker is gone (the loop
   * breaks), a price, or no price — a missing market or outcome, whose `.outcomes` or
   * `.price` then throws a TypeError.
   */
  datatype Price = Gone | Quoted(odds: real) | Unquoted

  /**
   * The price lookup of one leg.  In the quote (`infoOnly`) the outcome search returns
   * nothing for a totals leg, because its callback only answers for other markets.
   */
  function PriceLeg(leg: BetDetail, bookmakers: seq<Bookmaker>, infoOnly: bool): Price
  {
    match FindBookmaker(bookmakers, leg.bookmaker)
    case None => Gone
    case Some(b) =>
      match FindMarket(b.markets, leg.category)
      case None => Unquoted
      case Some(m) =>
        if infoOnly && leg.category == TOTAL then Unquoted
        else
          match FindOutcome(m.outcomes, leg.betOn.name)
          case None => Unquoted
          case Some(o) => Quoted(o.price)
  }

  /**
   * The loop breaks on a leg exactly when no listed bookmaker has the leg's key; a
   * price found is the price of an outcome named as the selection; and the quote
   * differs from the redemption only by finding no price, which it does for every
   * totals leg.
   */
  lemma PriceLegCases(leg: BetDetail, bookmakers: seq<Bookmaker>)
    ensures PriceLeg(leg, bookmakers, false).Gone? <==> forall i :: 0 <= i < |bookmakers| ==> bookmakers[i].key != leg.bookmaker
    ensures PriceLeg(leg, bookmakers, false).Quoted? ==>
      exists o :: o in FindMarket(FindBookmaker(bookmakers, leg.bookmaker).value.markets, leg.category).value.outcomes &&
        o.name == leg.betOn.name && o.price == PriceLeg(leg, bookmakers, false).odds
    ensures PriceLeg(leg, bookmakers, true) == PriceLeg(leg, bookmakers, false) || PriceLeg(leg, bookmakers, true).Unquoted?
    ensures leg.category == TOTAL ==> !PriceLeg(leg, bookmakers, true).Quoted?
    ensures leg.category != TOTAL ==> PriceLeg(leg, bookmakers, true) == PriceLeg(leg, bookmakers, false)
  {
    FindBookmakerFirst(bookmakers, leg.bookmaker);
    if FindBookmaker(bookmakers, leg.bookmaker).Some? {
      var b := FindBookmaker(bookmakers, leg.bookmaker).value;
      if FindMarket(b.markets, leg.category).Some? {
        FindOutcomeFound(FindMarket(b.markets, leg.category).value.outcomes, leg.betOn.name);
      }
    }
  }

  /** A loaded leg slot together with the price lookup made for it: `Missing` when `findById` gave `null`. */
  datatype Lookup = Missing | Found(leg: BetDetail, price: Price)

  /** The lookup the loop makes for one loaded slot. */
  function Entry(slot: Option<BetDetail>, quotes: BetDetail -> seq<Bookmaker>, infoOnly: bool): Lookup
  {
    if slot.None? then Missing else Found(slot.value, PriceLeg(slot.value, quotes(slot.value), infoOnly))
  }

  /** The legs in the order of `bet.data`, each with the lookup the loop makes when it reaches it. */
  function LookUp(slots: seq<Option<BetDetail>>, quotes: BetDetail -> seq<Bookmaker>, infoOnly: bool): (r: seq<Lookup>)
    ensures |r| == |slots|
  {
    if slots == [] then [] else LookUp(slots[..|slots| - 1], quotes, infoOnly) + [Entry(slots[|slots| - 1], quotes, infoOnly)]
  }

  lemma {:induction false} LookUpAt(slots: seq<Option<BetDetail>>, quotes: BetDetail -> seq<Bookmaker>, infoOnly: bool, i: int)
    requires 0 <= i < |slots|
    ensures LookUp(slots, quotes, infoOnly)[i] == Entry(slots[i], quotes, infoOnly)
  {
    var n := |slots| - 1;
    if i < n {
      LookUpAt(slots[..n], quotes, infoOnly, i);
    }
  }

  /** How the walk over the legs ended: it ran through, hit a vanished bookmaker (`failed`), or threw. */
  datatype Stop = Running | BookmakerGone | Threw

  /** The walk's state: the legs reached, the legs priced with their current prices, and how it stopped. */
  datatype Scan = Scan(visited: seq<BetDetail>, priced: seq<BetDetail>, prices: seq<real>, stop: Stop)

  /**
   * One pass of the loop.  A missing leg document throws at once; otherwise the leg
   * counts as reached (its old odds are multiplied in) before its price is used.  Once
   * stopped, the walk takes no further step (`break`, or the exception).
   */
  function Step(s: Scan, l: Lookup): Scan
  {
    if !s.stop.Running? then s
    else
      match l
      case Missing => s.(stop := Threw)
      case Found(leg, Gone) => Scan(s.visited + [leg], s.priced, s.prices, BookmakerGone)
      case Found(leg, Unquoted) => Scan(s.visited + [leg], s.priced, s.prices, Threw)
      case Found(leg, Quoted(p)) => Scan(s.visited + [leg], s.priced + [leg], s.prices + [p], Running)
  }

  /** The loop over all the loaded legs. */
  function Walk(ls: seq<Lookup>): Scan
  {
    if ls == [] then Scan([], [], [], Running) else Step(Walk(ls[..|ls| - 1]), ls[|ls| - 1])
  }

  /** `totalNewOdds`: the product of the current prices found, in leg order. */
  function Product(xs: seq<real>): real
  {
    if xs == [] then 1.0 else Product(xs[..|xs| - 1]) * xs[|xs| - 1]
  }

  lemma ProductStep(xs: seq<real>, x: real, product: real)
    requires product == Product(xs)
    ensures product * x == Product(xs + [x])
  {
    assert (xs + [x])[..|xs|] == xs;
  }

  /** `totalOldOdds` after one more leg. */
  lemma OddsProductSnoc(legs: seq<BetDetail>, leg: BetDetail, product: real)
    requires product == OddsProduct(legs)
    ensures product * leg.betOn.odds == OddsProduct(legs + [leg])
  {
    assert (legs + [leg])[..|legs|] == legs;
    OddsProductStep(legs + [leg], |legs|, product);
    assert (legs + [leg])[..|legs| + 1] == legs + [leg];
  }

  /** `Promise.all(bet.data.map(id => BetDetail.findById(id)))`: one slot per id, empty when the leg is gone. */
  function LoadLegs(details: map<string, BetDetail>, ids: seq<string>): (r: seq<Option<BetDetail>>)
    ensures |r| == |ids|
  {
    if ids == [] then []
    else
      var id := ids[|ids| - 1];
      LoadLegs(details, ids[..|ids| - 1]) + [if id in details then Some(details[id]) else None]
  }

  /** Each slot holds the document stored under its id, in the order of the ids. */
  lemma {:induction false} LoadLegsAt(details: map<string, BetDetail>, ids: seq<string>)
    ensures forall i :: 0 <= i < |ids| ==>
      LoadLegs(details, ids)[i] == if ids[i] in details then Some(details[ids[i]]) else None
  {
    if ids != [] {
      var n := |ids| - 1;
      LoadLegsAt(details, ids[..n]);
      assert forall i :: 0 <= i < n ==> ids[..n][i] == ids[i];
    }
  }

  /** `totalNewOdds / totalOldOdds`; a zero product of old odds, which JavaScript turns into Infinity or NaN, gives 0 here. */
  function Ratio(n: real, d: real): (r: real)
    ensures d != 0.0 ==> r * d == n
    ensures d == 0.0 ==> r == 0.0
  {
    if d == 0.0 then 0.0 else n / d
  }

  /** The redemption payout: the stake scaled by the odds movement, less the commission percentage. */
  function FinalPayout(newOdds: real, oldOdds: real, stake: real, commission: int): (r: real)
    ensures commission == 0 ==> r == Ratio(newOdds, oldOdds) * stake
    ensures 0 <= commission <= 100 && Ratio(newOdds, oldOdds) * stake >= 0.0 ==>
      0.0 <= r <= Ratio(newOdds, oldOdds) * stake
  {
    var amount := Ratio(newOdds, oldOdds) * stake;
    amount - (commission as real / 100.0) * amount
  }

  /** Odds that have not moved give a ratio of exactly 1. */
  lemma RatioOfSame(x: real)
    requires x != 0.0
    ensures Ratio(x, x) == 1.0
  {
  }

  /** When the odds have not moved, the redemption pays the stake less the commission percentage. */
  lemma FinalPayoutAtEvenOdds(newOdds: real, oldOdds: real, stake: real, commission: int)
    requires Ratio(newOdds, oldOdds) == 1.0
    ensures FinalPayout(newOdds, oldOdds, stake, commission) == stake - (commission as real / 100.0) * stake
  {
  }

  // ------------------------------------------------------------------ the walk

  lemma WalkStep(ls: seq<Lookup>, i: int)
    requires 0 <= i < |ls|
    ensures Walk(ls[..i + 1]) == Step(Walk(ls[..i]), ls[i])
  {
    assert ls[..i + 1][..i] == ls[..i];
  }

  /** Once the walk has stopped, the remaining legs are never looked at. */
  lemma {:induction false} WalkStops(ls: seq<Lookup>, i: int)
    requires 0 <= i <= |ls| && !Walk(ls[..i]).stop.Running?
    ensures Walk(ls) == Walk(ls[..i])
  {
    if i == |ls| {
      assert ls[..i] == ls;
    } else {
      var n := |ls| - 1;
      assert ls[..n][..i] == ls[..i];
      WalkStops(ls[..n], i);
    }
  }

  /** A walk that runs through has reached and priced every leg, in order. */
  lemma {:induction false} WalkRunning(ls: seq<Lookup>)
    requires Walk(ls).stop.Running?
    ensures Walk(ls).visited == Walk(ls).priced && |Walk(ls).visited| == |ls| == |Walk(ls).prices|
    ensures forall i :: 0 <= i < |ls| ==>
      ls[i].Found? && ls[i].leg == Walk(ls).visited[i] && ls[i].price == Quoted(Walk(ls).prices[i])
  {
    if ls != [] {
      var n := |ls| - 1;
      var s := Walk(ls[..n]);
      assert s.stop.Running?;
      WalkRunning(ls[..n]);
      assert forall i :: 0 <= i < n ==> ls[..n][i] == ls[i];
    }
  }

  /** A walk stopped by a vanished bookmaker has reached at least that leg. */
  lemma {:induction false} WalkGoneReached(ls: seq<Lookup>)
    requires Walk(ls).stop.BookmakerGone?
    ensures Walk(ls).visited != []
  {
    var n := |ls| - 1;
    if !Walk(ls[..n]).stop.Running? {
      WalkGoneReached(ls[..n]);
    }
  }

  /**
   * Two walks over the same legs whose lookups differ only where the first found no
   * price: unless the first threw, they are the same walk.
   */
  lemma {:induction false} WalkAgrees(a: seq<Lookup>, b: seq<Lookup>)
    requires |a| == |b|
    requires forall i :: 0 <= i < |a| ==> a[i] == b[i] || (a[i].Found? && b[i].Found? && a[i].leg == b[i].leg && a[i].price.Unquoted?)
    requires !Walk(a).stop.Threw?
    ensures Walk(a) == Walk(b)
  {
    if a != [] {
      var n := |a| - 1;
      assert forall i :: 0 <= i < n ==> a[..n][i] == a[i] && b[..n][i] == b[i];
      if !Walk(a[..n]).stop.Threw? {
        WalkAgrees(a[..n], b[..n]);
      }
    }
  }

  /** Multiplying both products by the same leg's odds keeps them equal. */
  lemma ProductsAgree(prices: seq<real>, visited: seq<BetDetail>, leg: BetDetail)
    requires Product(prices) == OddsProduct(visited)
    ensures Product(prices + [leg.betOn.odds]) == OddsProduct(visited + [leg])
  {
    var p := Product(prices);
    ProductStep(prices, leg.betOn.odds, p);
    OddsProductSnoc(visited, leg, p);
  }

  /** When every leg is quoted at the odds it was placed at, the walk runs through and both products agree. */
  lemma {:induction false} WalkUnchangedOdds(ls: seq<Lookup>)
    requires forall i :: 0 <= i < |ls| ==> ls[i].Found? && ls[i].price == Quoted(ls[i].leg.betOn.odds)
    ensures Walk(ls).stop.Running?
    ensures Product(Walk(ls).prices) == OddsProduct(Walk(ls).visited)
  {
    if ls != [] {
      var n := |ls| - 1;
      assert forall i :: 0 <= i < n ==> ls[..n][i] == ls[i];
      WalkUnchangedOdds(ls[..n]);
      var s := Walk(ls[..n]);
      var leg := ls[n].leg;
      var o := leg.betOn.odds;
      assert Walk(ls) == Scan(s.visited + [leg], s.priced + [leg], s.prices + [o], Running);
      ProductsAgree(s.prices, s.visited, leg);
    }
  }

  // ------------------------------------------------------------------ the writes

  /** The legs priced by `redeemPlayerBet`, each saved with status redeem and resolved. */
  function MarkRedeemed(details: map<string, BetDetail>, legs: seq<BetDetail>): (r: map<string, BetDetail>)
    ensures r.Keys == details.Keys
  {
    if legs == [] then details
    else SetDetailStatus(MarkRedeemed(details, legs[..|legs| - 1]), legs[|legs| - 1].id, Redeem, true)
  }

  /** Every priced leg that exists ends redeemed and resolved; every other leg document is untouched. */
  lemma {:induction false} MarkRedeemedEffect(details: map<string, BetDetail>, legs: seq<BetDetail>)
    ensures forall i :: 0 <= i < |legs| && legs[i].id in details ==>
      MarkRedeemed(details, legs)[legs[i].id].status == Redeem && MarkRedeemed(details, legs)[legs[i].id].isResolved
    ensures forall id :: id in details && (forall i :: 0 <= i < |legs| ==> legs[i].id != id) ==>
      MarkRedeemed(details, legs)[id] == details[id]
  {
    if legs != [] {
      var n := |legs| - 1;
      MarkRedeemedEffect(details, legs[..n]);
      assert forall i :: 0 <= i < n ==> legs[..n][i] == legs[i];
    }
  }

  /** The failure loop over the loaded legs: the leg documents afterwards, and whether it threw on a missing one. */
  datatype Failing = Failing(details: map<string, BetDetail>, crashed: bool)

  /** `for (betDetails of betDetailsArray) { betDetails.status = "failed"; save }`, the resolved flag left as loaded. */
  function FailSlots(details: map<string, BetDetail>, slots: seq<Option<BetDetail>>): (r: Failing)
    ensures r.details.Keys == details.Keys
  {
    if slots == [] then Failing(details, false)
    else
      var n := |slots| - 1;
      var before := FailSlots(details, slots[..n]);
      if before.crashed then before
      else if slots[n].None? then Failing(before.details, true)
      else Failing(WithDetailStatus(before.details, slots[n].value.id, Failed), false)
  }

  /** The failure loop throws exactly when some leg is missing. */
  lemma {:induction false} FailSlotsCrashed(details: map<string, BetDetail>, slots: seq<Option<BetDetail>>)
    ensures FailSlots(details, slots).crashed <==> exists i :: 0 <= i < |slots| && slots[i].None?
  {
    if slots != [] {
      var n := |slots| - 1;
      FailSlotsCrashed(details, slots[..n]);
      assert forall i :: 0 <= i < n ==> slots[..n][i] == slots[i];
    }
  }

  /** When no leg is missing, every loaded leg is saved failed with nothing else changed. */
  lemma {:induction false} FailSlotsAt(details: map<string, BetDetail>, slots: seq<Option<BetDetail>>, i: int)
    requires 0 <= i < |slots| && !FailSlots(details, slots).crashed
    requires slots[i].Some? && slots[i].value.id in details
    ensures FailSlots(details, slots).details[slots[i].value.id] == details[slots[i].value.id].(status := Failed)
  {
    var n := |slots| - 1;
    var before := FailSlots(details, slots[..n]);
    assert !before.crashed;
    if i < n {
      assert slots[..n][i] == slots[i];
      FailSlotsAt(details, slots[..n], i);
    } else {
      if slots[n].value.id in before.details {
        var id := slots[n].value.id;
        if exists k :: 0 <= k < n && slots[k].Some? && slots[k].value.id == id {
          var k :| 0 <= k < n && slots[k].Some? && slots[k].value.id == id;
          assert slots[..n][k] == slots[k];
          FailSlotsAt(details, slots[..n], k);
        } else {
          FailSlotsUntouched(details, slots[..n], id);
        }
      }
    }
  }

  /** The failure loop leaves the documents of other ids as they were. */
  lemma {:induction false} FailSlotsUntouched(details: map<string, BetDetail>, slots: seq<Option<BetDetail>>, id: string)
    requires id in details && forall k :: 0 <= k < |slots| && slots[k].Some? ==> slots[k].value.id != id
    ensures FailSlots(details, slots).details[id] == details[id]
  {
    if slots != [] {
      var n := |slots| - 1;
      assert forall k :: 0 <= k < n ==> slots[..n][k] == slots[k];
      FailSlotsUntouched(details, slots[..n], id);
    }
  }

  /** Who was paid, what was written and which legs were reached (and so taken off the waiting set). */
  datatype Redeemed = Redeemed(db: Db, reply: Reply, visited: seq<BetDetail>)

  /**
   * `redeemPlayerBet` on the store.  Nothing runs in a session: every save of a priced
   * leg and of the parent persists even when a later step throws.  The credit goes to
   * the calling player `userId`, whoever placed the bet.
   */
  function RedeemSpec(db: Db, userId: string, betId: string, quotes: BetDetail -> seq<Bookmaker>, commission: int): Redeemed
  {
    if userId !in db.players then Redeemed(db, Refused(404), [])
    else if betId !in db.bets then Redeemed(db, Refused(404), [])
    else if db.bets[betId].status != Pending then Redeemed(db, Refused(400), [])
    else
      var bet := db.bets[betId];
      var slots := LoadLegs(db.details, bet.data);
      var s := Walk(LookUp(slots, quotes, false));
      var written := db.(details := MarkRedeemed(db.details, s.priced),
                         bets := if s.priced == [] then db.bets else WithBetStatus(db.bets, betId, Redeem));
      match s.stop
      case Threw => Redeemed(written, Crashed, s.visited)
      case BookmakerGone =>
        var failing := FailSlots(written.details, slots);
        if failing.crashed then Redeemed(written.(details := failing.details), Crashed, s.visited)
        else Redeemed(written.(details := failing.details,
                               players := AddCredits(db.players, userId, bet.amount),
                               bets := WithBetStatus(written.bets, betId, Failed)), Refused(400), s.visited)
      case Running =>
        Redeemed(written.(players := AddCredits(db.players, userId, FinalPayout(Product(s.prices), OddsProduct(s.visited), bet.amount, commission)),
                          bets := WithBetStatus(written.bets, betId, Redeem)), Done, s.visited)
  }

  /** The answer of `redeemBetInfo`: the payout, the full refund announced when a bookmaker is gone, an http error, or a TypeError. */
  datatype Quote = Payout(amount: real) | FullRefund(amount: real) | QuoteRefused(code: int) | QuoteCrashed

  /** `redeemBetInfo`: the same checks and walk as the redemption, reading only. */
  function RedeemInfoSpec(db: Db, userId: string, betId: string, quotes: BetDetail -> seq<Bookmaker>, commission: int): Quote
  {
    if userId !in db.players then QuoteRefused(404)
    else if betId !in db.bets then QuoteRefused(404)
    else if db.bets[betId].status != Pending then QuoteRefused(400)
    else
      var bet := db.bets[betId];
      var s := Walk(LookUp(LoadLegs(db.details, bet.data), quotes, true));
      match s.stop
      case Threw => QuoteCrashed
      case BookmakerGone => FullRefund(bet.amount)
      case Running => Payout(FinalPayout(Product(s.prices), OddsProduct(s.visited), bet.amount, commission))
  }

  // ------------------------------------------------------------------ the handlers

  /** The loop of `redeemBetInfo`: the two running products and how the walk ended. */
  method QuoteLegs(slots: seq<Option<BetDetail>>, quotes: BetDetail -> seq<Bookmaker>)
    returns (stop: Stop, totalOldOdds: real, totalNewOdds: real)
    ensures stop == Walk(LookUp(slots, quotes, true)).stop
    ensures totalOldOdds == OddsProduct(Walk(LookUp(slots, quotes, true)).visited)
    ensures totalNewOdds == Product(Walk(LookUp(slots, quotes, true)).prices)
  {
    ghost var ls := LookUp(slots, quotes, true);
    stop := Running;
    totalOldOdds := 1.0;
    totalNewOdds := 1.0;
    ghost var visited: seq<BetDetail> := [];
    ghost var priced: seq<BetDetail> := [];
    ghost var prices: seq<real> := [];
    var i := 0;
    while i < |slots| && stop == Running
      invariant 0 <= i <= |slots|
      invariant Walk(ls[..i]) == Scan(visited, priced, prices, stop)
      invariant totalOldOdds == OddsProduct(visited) && totalNewOdds == Product(prices)
      decreases |slots| - i
    {
      WalkStep(ls, i);
      LookUpAt(slots, quotes, true, i);
      if slots[i].None? {
        stop := Threw;
      } else {
        var leg := slots[i].value;
        var price := PriceLeg(leg, quotes(leg), true);
        OddsProductSnoc(visited, leg, totalOldOdds);
        totalOldOdds := totalOldOdds * leg.betOn.odds;
        visited := visited + [leg];
        match price
        case Gone => stop := BookmakerGone;
        case Unquoted => stop := Threw;
        case Quoted(odds) =>
          ProductStep(prices, odds, totalNewOdds);
          totalNewOdds := totalNewOdds * odds;
          prices := prices + [odds];
          priced := priced + [leg];
      }
      i := i + 1;
    }
    if stop == Running {
      assert ls[..i] == ls;
    } else {
      WalkStops(ls, i);
    }
  }

  /** `redeemBetInfo`. */
  method RedeemBetInfo(db: Db, userId: string, betId: string, quotes: BetDetail -> seq<Bookmaker>, commission: int)
    returns (q: Quote)
    ensures q == RedeemInfoSpec(db, userId, betId, quotes, commission)
  {
    if userId !in db.players {
      return QuoteRefused(404);
    }
    if betId !in db.bets {
      return QuoteRefused(404);
    }
    var bet := db.bets[betId];
    if bet.status != Pending {
      return QuoteRefused(400);
    }
    var stop, totalOldOdds, totalNewOdds := QuoteLegs(LoadLegs(db.details, bet.data), quotes);
    match stop
    case Threw => q := QuoteCrashed;
    case BookmakerGone => q := FullRefund(bet.amount);
    case Running => q := Payout(FinalPayout(totalNewOdds, totalOldOdds, bet.amount, commission));
  }

  lemma MarkRedeemedSnoc(details: map<string, BetDetail>, legs: seq<BetDetail>, leg: BetDetail)
    ensures MarkRedeemed(details, legs + [leg]) == SetDetailStatus(MarkRedeemed(details, legs), leg.id, Redeem, true)
  {
    assert (legs + [leg])[..|legs|] == legs;
  }

  /**
   * The loop of `redeemPlayerBet`: it takes each reached leg off the waiting set,
   * multiplies both products, and saves each priced leg and the parent as redeemed.
   */
  method RedeemLegs(details0: map<string, BetDetail>, bets0: map<string, Bet>, wq: SortedSet, betId: string,
                    slots: seq<Option<BetDetail>>, quotes: BetDetail -> seq<Bookmaker>)
    returns (stop: Stop, totalOldOdds: real, totalNewOdds: real, details: map<string, BetDetail>, bets: map<string, Bet>)
    requires betId in bets0
    modifies wq
    ensures stop == Walk(LookUp(slots, quotes, false)).stop
    ensures totalOldOdds == OddsProduct(Walk(LookUp(slots, quotes, false)).visited)
    ensures totalNewOdds == Product(Walk(LookUp(slots, quotes, false)).prices)
    ensures details == MarkRedeemed(details0, Walk(LookUp(slots, quotes, false)).priced)
    ensures bets == if Walk(LookUp(slots, quotes, false)).priced == [] then bets0
                    else WithBetStatus(bets0, betId, Redeem)
    ensures wq.entries == old(wq.entries) - MembersOf(Walk(LookUp(slots, quotes, false)).visited)
  {
    ghost var ls := LookUp(slots, quotes, false);
    details := details0;
    bets := bets0;
    stop := Running;
    totalOldOdds := 1.0;
    totalNewOdds := 1.0;
    ghost var acc := Scan([], [], [], Running);
    assert old(wq.entries) - MembersOf([]) == old(wq.entries);
    var i := 0;
    while i < |slots| && stop == Running
      invariant 0 <= i <= |slots|
      invariant stop == acc.stop
      invariant acc == Walk(ls[..i])
      invariant totalOldOdds == OddsProduct(acc.visited) && totalNewOdds == Product(acc.prices)
      invariant details == MarkRedeemed(details0, acc.priced)
      invariant bets == if acc.priced == [] then bets0 else WithBetStatus(bets0, betId, Redeem)
      invariant wq.entries == old(wq.entries) - MembersOf(acc.visited)
      decreases |slots| - i
    {
      WalkStep(ls, i);
      LookUpAt(slots, quotes, false, i);
      stop, totalOldOdds, totalNewOdds, details, bets :=
        RedeemLeg(details0, bets0, wq, betId, old(wq.entries), acc, slots[i], quotes, totalOldOdds, totalNewOdds, details, bets);
      acc := Step(acc, ls[i]);
      i := i + 1;
    }
    if stop == Running {
      assert ls[..i] == ls;
    } else {
      WalkStops(ls, i);
    }
  }

  /**
   * One pass of the loop of `RedeemLegs`, on the loaded slot `slot`: a missing leg
   * throws; otherwise the leg leaves the waiting set and its old odds are multiplied
   * in, then its price decides between `break`, the exception and saving the leg and
   * the bet as redeemed.
   */
  method RedeemLeg(details0: map<string, BetDetail>, bets0: map<string, Bet>, wq: SortedSet, betId: string,
                   ghost entries0: map<Member, real>, ghost acc: Scan, slot: Option<BetDetail>,
                   quotes: BetDetail -> seq<Bookmaker>, oldOdds0: real, newOdds0: real, details1: map<string, BetDetail>,
                   bets1: map<string, Bet>)
    returns (stop: Stop, totalOldOdds: real, totalNewOdds: real, details: map<string, BetDetail>, bets: map<string, Bet>)
    requires oldOdds0 == OddsProduct(acc.visited) && newOdds0 == Product(acc.prices)
    requires details1 == MarkRedeemed(details0, acc.priced)
    requires bets1 == if acc.priced == [] then bets0 else WithBetStatus(bets0, betId, Redeem)
    requires wq.entries == entries0 - MembersOf(acc.visited)
    requires acc.stop == Running
    modifies wq
    ensures stop == Step(acc, Entry(slot, quotes, false)).stop
    ensures totalOldOdds == OddsProduct(Step(acc, Entry(slot, quotes, false)).visited)
    ensures totalNewOdds == Product(Step(acc, Entry(slot, quotes, false)).prices)
    ensures details == MarkRedeemed(details0, Step(acc, Entry(slot, quotes, false)).priced)
    ensures bets == if Step(acc, Entry(slot, quotes, false)).priced == [] then bets0
                    else WithBetStatus(bets0, betId, Redeem)
    ensures wq.entries == entries0 - MembersOf(Step(acc, Entry(slot, quotes, false)).visited)
  {
    totalOldOdds, totalNewOdds, details, bets := oldOdds0, newOdds0, details1, bets1;
    if slot.None? {
      stop := Threw;
      return;
    }
    var leg := slot.value;
    var price := PriceLeg(leg, quotes(leg), false);
    MembersOfSnoc(entries0, acc.visited, leg);
    wq.Remove(Member(leg.id, leg.commenceTime));
    OddsProductSnoc(acc.visited, leg, totalOldOdds);
    totalOldOdds := totalOldOdds * leg.betOn.odds;
    match price
    case Gone => stop := BookmakerGone;
    case Unquoted => stop := Threw;
    case Quoted(odds) =>
      ProductStep(acc.prices, odds, totalNewOdds);
      totalNewOdds := totalNewOdds * odds;
      MarkRedeemedSnoc(details0, acc.priced, leg);
      details := SetDetailStatus(details, leg.id, Redeem, true);
      bets := WithBetStatus(bets0, betId, Redeem);
      stop := Running;
  }

  /**
   * `redeemPlayerBet`: the checks, the loop, then either the failure loop and the full
   * refund, or the payout.  The player credited is the caller.
   */
  method RedeemPlayerBet(db: Db, wq: SortedSet, userId: string, betId: string, quotes: BetDetail -> seq<Bookmaker>,
                         commission: int) returns (after: Db, reply: Reply)
    modifies wq
    ensures after == RedeemSpec(db, userId, betId, quotes, commission).db
    ensures reply == RedeemSpec(db, userId, betId, quotes, commission).reply
    ensures wq.entries == old(wq.entries) - MembersOf(RedeemSpec(db, userId, betId, quotes, commission).visited)
  {
    assert old(wq.entries) - MembersOf([]) == old(wq.entries);
    if userId !in db.players {
      return db, Refused(404);
    }
    if betId !in db.bets {
      return db, Refused(404);
    }
    var bet := db.bets[betId];
    if bet.status != Pending {
      return db, Refused(400);
    }
    var slots := LoadLegs(db.details, bet.data);
    var stop, totalOldOdds, totalNewOdds, details, bets := RedeemLegs(db.details, db.bets, wq, betId, slots, quotes);
    ghost var s := Walk(LookUp(slots, quotes, false));
    assert RedeemSpec(db, userId, betId, quotes, commission).visited == s.visited;
    match stop
    case Threw =>
      after, reply := db.(details := details, bets := bets), Crashed;
    case BookmakerGone =>
      var failing := FailLegs(details, slots);
      if failing.crashed {
        after, reply := db.(details := failing.details, bets := bets), Crashed;
      } else {
        after := db.(details := failing.details, players := AddCredits(db.players, userId, bet.amount),
                     bets := WithBetStatus(bets, betId, Failed));
        reply := Refused(400);
      }
    case Running =>
      var finalPayout := FinalPayout(totalNewOdds, totalOldOdds, bet.amount, commission);
      after := db.(details := details, players := AddCredits(db.players, userId, finalPayout),
                   bets := WithBetStatus(bets, betId, Redeem));
      reply := Done;
  }

  /** Once the failure loop has thrown, it saves no further leg. */
  lemma {:induction false} FailStops(details: map<string, BetDetail>, slots: seq<Option<BetDetail>>, j: int)
    requires 0 <= j <= |slots| && FailSlots(details, slots[..j]).crashed
    ensures FailSlots(details, slots) == FailSlots(details, slots[..j])
  {
    if j == |slots| {
      assert slots[..j] == slots;
    } else {
      var n := |slots| - 1;
      assert slots[..n][..j] == slots[..j];
      FailStops(details, slots[..n], j);
    }
  }

  /** The failure loop of `redeemPlayerBet`. */
  method FailLegs(details: map<string, BetDetail>, slots: seq<Option<BetDetail>>) returns (r: Failing)
    ensures r == FailSlots(details, slots)
  {
    var current := details;
    var j := 0;
    while j < |slots|
      invariant 0 <= j <= |slots|
      invariant FailSlots(details, slots[..j]) == Failing(current, false)
    {
      assert slots[..j + 1][..j] == slots[..j];
      if slots[j].None? {
        FailStops(details, slots, j + 1);
        return Failing(current, true);
      }
      current := WithDetailStatus(current, slots[j].value.id, Failed);
      j := j + 1;
    }
    assert slots[..j] == slots;
    return Failing(current, false);
  }
}
