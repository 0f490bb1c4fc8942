/**
 * What early redemption promises, stated on `RedeemSpec` and `RedeemInfoSpec`: the
 * refusals write nothing, a vanished bookmaker refunds the stake, a walk that runs
 * through pays the odds-scaled stake, nobody but the caller is credited, and the quote
 * agrees with the redemption except on totals legs, where it throws.
 */
module RedemptionLaws {
  import opened Wrappers
  import opened Records
  import opened Utils
  import opened BetController
  import opened Redemption

  /** The caller, the bet and its status pass the three checks. */
  predicate Admitted(db: Db, userId: string, betId: string)
  {
    userId in db.players && betId in db.bets && db.bets[betId].status == Pending
  }

  /** The walk of the redemption over a bet's loaded legs. */
  function RedeemWalk(db: Db, betId: string, quotes: BetDetail -> seq<Bookmaker>, infoOnly: bool): Scan
    requires betId in db.bets
  {
    Walk(LookUp(LoadLegs(db.details, db.bets[betId].data), quotes, infoOnly))
  }

  /** Every leg id of the bet names a stored leg document. */
  predicate LegsStored(db: Db, betId: string)
    requires betId in db.bets
  {
    forall i :: 0 <= i < |db.bets[betId].data| ==> db.bets[betId].data[i] in db.details
  }

  /** Each lookup of the walk is the lookup of the leg stored under that id, or `Missing`. */
  lemma LookUpLoaded(db: Db, betId: string, quotes: BetDetail -> seq<Bookmaker>, infoOnly: bool)
    requires betId in db.bets
    ensures var ids := db.bets[betId].data;
      var ls := LookUp(LoadLegs(db.details, ids), quotes, infoOnly);
      |ls| == |ids| &&
      forall i :: 0 <= i < |ids| ==>
        ls[i] == if ids[i] in db.details then Found(db.details[ids[i]], PriceLeg(db.details[ids[i]], quotes(db.details[ids[i]]), infoOnly))
                 else Missing
  {
    var ids := db.bets[betId].data;
    LoadLegsAt(db.details, ids);
    forall i | 0 <= i < |ids| {
      LookUpAt(LoadLegs(db.details, ids), quotes, infoOnly, i);
    }
  }

  /** The three refusals are exactly the answers that reach no leg, and they write nothing. */
  lemma RedeemRefusals(db: Db, userId: string, betId: string, quotes: BetDetail -> seq<Bookmaker>, commission: int)
    ensures var r := RedeemSpec(db, userId, betId, quotes, commission);
      !Admitted(db, userId, betId) <==> r.reply.Refused? && r.visited == []
    ensures !Admitted(db, userId, betId) ==> RedeemSpec(db, userId, betId, quotes, commission).db == db
  {
    if Admitted(db, userId, betId) {
      var s := RedeemWalk(db, betId, quotes, false);
      if s.stop.BookmakerGone? {
        WalkGoneReached(LookUp(LoadLegs(db.details, db.bets[betId].data), quotes, false));
      }
    }
  }

  /**
   * A bookmaker that vanished refunds the stake: with every leg document stored, the
   * caller gets the stake back, and the bet and each of its legs are saved failed.
   */
  lemma RedeemRefundsStake(db: Db, userId: string, betId: string, quotes: BetDetail -> seq<Bookmaker>, commission: int)
    requires Admitted(db, userId, betId) && Keyed(db.details) && LegsStored(db, betId)
    requires RedeemWalk(db, betId, quotes, false).stop.BookmakerGone?
    ensures var r := RedeemSpec(db, userId, betId, quotes, commission);
      var bet := db.bets[betId];
      r.reply == Refused(400) &&
      userId in r.db.players && r.db.players[userId].credits == db.players[userId].credits + bet.amount &&
      betId in r.db.bets && r.db.bets[betId].status == Failed &&
      forall i :: 0 <= i < |bet.data| ==> bet.data[i] in r.db.details && r.db.details[bet.data[i]].status == Failed
  {
    var bet := db.bets[betId];
    var slots := LoadLegs(db.details, bet.data);
    var s := Walk(LookUp(slots, quotes, false));
    var marked := MarkRedeemed(db.details, s.priced);
    LoadLegsAt(db.details, bet.data);
    FailSlotsCrashed(marked, slots);
    forall i | 0 <= i < |bet.data|
      ensures FailSlots(marked, slots).details[bet.data[i]].status == Failed
    {
      assert slots[i].value.id == bet.data[i];
      FailSlotsAt(marked, slots, i);
    }
  }

  /** A walk that runs through answers done and credits the caller with the redemption payout. */
  lemma RedeemRunningCredits(db: Db, userId: string, betId: string, quotes: BetDetail -> seq<Bookmaker>, commission: int)
    requires Admitted(db, userId, betId) && RedeemWalk(db, betId, quotes, false).stop.Running?
    ensures var r := RedeemSpec(db, userId, betId, quotes, commission);
      var s := RedeemWalk(db, betId, quotes, false);
      r.reply == Done && userId in r.db.players &&
      r.db.players[userId].credits ==
        db.players[userId].credits + FinalPayout(Product(s.prices), OddsProduct(s.visited), db.bets[betId].amount, commission) &&
      betId in r.db.bets && r.db.bets[betId].status == Redeem
  {
    var bet := db.bets[betId];
    var s := RedeemWalk(db, betId, quotes, false);
    var payout := FinalPayout(Product(s.prices), OddsProduct(s.visited), bet.amount, commission);
    var bets := if s.priced == [] then db.bets else WithBetStatus(db.bets, betId, Redeem);
    assert RedeemSpec(db, userId, betId, quotes, commission).db ==
      db.(details := MarkRedeemed(db.details, s.priced), players := AddCredits(db.players, userId, payout),
          bets := WithBetStatus(bets, betId, Redeem));
  }

  /**
   * A walk that runs through reaches every leg, which therefore all exist, prices each
   * at the outcome the bookmaker lists for it, credits the caller with the stake scaled
   * by the odds movement less the commission, and saves the bet and all its legs redeemed.
   */
  lemma RedeemPaysOut(db: Db, userId: string, betId: string, quotes: BetDetail -> seq<Bookmaker>, commission: int)
    requires Admitted(db, userId, betId) && Keyed(db.details)
    requires RedeemWalk(db, betId, quotes, false).stop.Running?
    ensures var r := RedeemSpec(db, userId, betId, quotes, commission);
      var bet := db.bets[betId];
      var s := RedeemWalk(db, betId, quotes, false);
      r.reply == Done && LegsStored(db, betId) &&
      |s.visited| == |bet.data| == |s.prices| &&
      (forall i :: 0 <= i < |bet.data| ==>
        s.visited[i] == db.details[bet.data[i]] && PriceLeg(s.visited[i], quotes(s.visited[i]), false) == Quoted(s.prices[i])) &&
      userId in r.db.players &&
      r.db.players[userId].credits ==
        db.players[userId].credits + FinalPayout(Product(s.prices), OddsProduct(s.visited), bet.amount, commission) &&
      betId in r.db.bets && r.db.bets[betId].status == Redeem &&
      forall i :: 0 <= i < |bet.data| ==>
        r.db.details[bet.data[i]].status == Redeem && r.db.details[bet.data[i]].isResolved
  {
    var bet := db.bets[betId];
    var ls := LookUp(LoadLegs(db.details, bet.data), quotes, false);
    var s := Walk(ls);
    LookUpLoaded(db, betId, quotes, false);
    WalkRunning(ls);
    MarkRedeemedEffect(db.details, s.priced);
    forall i | 0 <= i < |bet.data|
      ensures bet.data[i] in db.details && s.priced[i].id == bet.data[i]
    {
      assert ls[i].Found?;
    }
  }

  /** Nobody but the calling player is credited, no other bet is written, and the other collections are untouched. */
  lemma RedeemTouchesOnlyCaller(db: Db, userId: string, betId: string, quotes: BetDetail -> seq<Bookmaker>, commission: int)
    ensures var after := RedeemSpec(db, userId, betId, quotes, commission).db;
      after.users == db.users && after.scores == db.scores && after.transfers == db.transfers
    ensures var after := RedeemSpec(db, userId, betId, quotes, commission).db;
      after.players.Keys == db.players.Keys && after.bets.Keys == db.bets.Keys && after.details.Keys == db.details.Keys
    ensures var after := RedeemSpec(db, userId, betId, quotes, commission).db;
      forall p :: p in db.players && p != userId ==> after.players[p] == db.players[p]
    ensures var after := RedeemSpec(db, userId, betId, quotes, commission).db;
      forall b :: b in db.bets && b != betId ==> after.bets[b] == db.bets[b]
  {
    if Admitted(db, userId, betId) {
      var bet := db.bets[betId];
      var slots := LoadLegs(db.details, bet.data);
      var s := Walk(LookUp(slots, quotes, false));
      var details := MarkRedeemed(db.details, s.priced);
      var bets := if s.priced == [] then db.bets else WithBetStatus(db.bets, betId, Redeem);
      var r := RedeemSpec(db, userId, betId, quotes, commission);
      match s.stop
      case Threw =>
        assert r.db == db.(details := details, bets := bets);
      case BookmakerGone =>
        var failing := FailSlots(details, slots);
        if failing.crashed {
          assert r.db == db.(details := failing.details, bets := bets);
        } else {
          assert r.db == db.(details := failing.details, players := AddCredits(db.players, userId, bet.amount),
                             bets := WithBetStatus(bets, betId, Failed));
        }
      case Running =>
        var payout := FinalPayout(Product(s.prices), OddsProduct(s.visited), bet.amount, commission);
        assert r.db == db.(details := details, players := AddCredits(db.players, userId, payout),
                           bets := WithBetStatus(bets, betId, Redeem));
    }
  }

  /** The quote walks the legs like the redemption, except that it may find no price where the redemption finds one. */
  lemma InfoWalkAgrees(db: Db, betId: string, quotes: BetDetail -> seq<Bookmaker>)
    requires betId in db.bets && !RedeemWalk(db, betId, quotes, true).stop.Threw?
    ensures RedeemWalk(db, betId, quotes, true) == RedeemWalk(db, betId, quotes, false)
  {
    var slots := LoadLegs(db.details, db.bets[betId].data);
    var a := LookUp(slots, quotes, true);
    var b := LookUp(slots, quotes, false);
    forall i | 0 <= i < |a|
      ensures a[i] == b[i] || (a[i].Found? && b[i].Found? && a[i].leg == b[i].leg && a[i].price.Unquoted?)
    {
      LookUpAt(slots, quotes, true, i);
      LookUpAt(slots, quotes, false, i);
      if slots[i].Some? {
        PriceLegCases(slots[i].value, quotes(slots[i].value));
      }
    }
    WalkAgrees(a, b);
  }

  /**
   * What the quote announces is what the redemption then does: a payout quote is the
   * credit a redemption makes, and a full-refund quote is the stake refunded when every
   * leg document is stored.
   */
  lemma InfoMatchesRedeem(db: Db, userId: string, betId: string, quotes: BetDetail -> seq<Bookmaker>, commission: int)
    ensures var q := RedeemInfoSpec(db, userId, betId, quotes, commission);
      var r := RedeemSpec(db, userId, betId, quotes, commission);
      q.Payout? ==> Admitted(db, userId, betId) && r.reply == Done && userId in r.db.players &&
                    r.db.players[userId].credits == db.players[userId].credits + q.amount
    ensures var q := RedeemInfoSpec(db, userId, betId, quotes, commission);
      var r := RedeemSpec(db, userId, betId, quotes, commission);
      q.FullRefund? ==>
        Admitted(db, userId, betId) &&
        (Keyed(db.details) && LegsStored(db, betId) ==>
           r.reply == Refused(400) && userId in r.db.players &&
           r.db.players[userId].credits == db.players[userId].credits + q.amount)
  {
    if Admitted(db, userId, betId) && !RedeemWalk(db, betId, quotes, true).stop.Threw? {
      InfoWalkAgrees(db, betId, quotes);
      if RedeemWalk(db, betId, quotes, false).stop.BookmakerGone? && Keyed(db.details) && LegsStored(db, betId) {
        RedeemRefundsStake(db, userId, betId, quotes, commission);
      }
    }
  }

  /** A bet that redeems with a totals leg among its stored legs could not have been quoted: the quote throws. */
  lemma InfoThrowsOnTotals(db: Db, userId: string, betId: string, quotes: BetDetail -> seq<Bookmaker>, commission: int)
    requires Admitted(db, userId, betId) && RedeemSpec(db, userId, betId, quotes, commission).reply == Done
    requires exists i :: 0 <= i < |db.bets[betId].data| && db.bets[betId].data[i] in db.details &&
                         db.details[db.bets[betId].data[i]].category == TOTAL
    ensures RedeemInfoSpec(db, userId, betId, quotes, commission) == QuoteCrashed
  {
    var ids := db.bets[betId].data;
    var i :| 0 <= i < |ids| && ids[i] in db.details && db.details[ids[i]].category == TOTAL;
    var a := LookUp(LoadLegs(db.details, ids), quotes, true);
    if !Walk(a).stop.Threw? {
      InfoWalkAgrees(db, betId, quotes);
      WalkRunning(a);
      LookUpLoaded(db, betId, quotes, true);
      var leg := db.details[ids[i]];
      PriceLegCases(leg, quotes(leg));
      assert false;
    }
  }

  /** Without a totals leg the quote and the redemption walk alike, and a payout is quoted exactly when one is made. */
  lemma InfoAgreesWithoutTotals(db: Db, userId: string, betId: string, quotes: BetDetail -> seq<Bookmaker>, commission: int)
    requires betId in db.bets
    requires forall i :: 0 <= i < |db.bets[betId].data| && db.bets[betId].data[i] in db.details ==>
                         db.details[db.bets[betId].data[i]].category != TOTAL
    ensures RedeemWalk(db, betId, quotes, true) == RedeemWalk(db, betId, quotes, false)
    ensures RedeemInfoSpec(db, userId, betId, quotes, commission).Payout? <==>
            RedeemSpec(db, userId, betId, quotes, commission).reply == Done
  {
    var slots := LoadLegs(db.details, db.bets[betId].data);
    LoadLegsAt(db.details, db.bets[betId].data);
    var a := LookUp(slots, quotes, true);
    var b := LookUp(slots, quotes, false);
    forall i | 0 <= i < |a|
      ensures a[i] == b[i]
    {
      LookUpAt(slots, quotes, true, i);
      LookUpAt(slots, quotes, false, i);
      if slots[i].Some? {
        PriceLegCases(slots[i].value, quotes(slots[i].value));
      }
    }
    assert a == b;
  }

  /**
   * Redeeming when every leg is still quoted at the odds it was placed at, all at least
   * 1, returns the stake less the commission percentage.
   */
  lemma RedeemAtUnchangedOdds(db: Db, userId: string, betId: string, quotes: BetDetail -> seq<Bookmaker>, commission: int)
    requires Admitted(db, userId, betId) && LegsStored(db, betId)
    requires UnchangedOdds(db, betId, quotes)
    ensures RedeemSpec(db, userId, betId, quotes, commission).reply == Done
    ensures userId in RedeemSpec(db, userId, betId, quotes, commission).db.players
    ensures RedeemSpec(db, userId, betId, quotes, commission).db.players[userId].credits ==
            db.players[userId].credits + db.bets[betId].amount - (commission as real / 100.0) * db.bets[betId].amount
  {
    UnchangedOddsWalk(db, betId, quotes);
    RedeemAtEvenProducts(db, userId, betId, quotes, commission);
  }

  /** A walk that runs through with the two products equal (and not zero) pays the stake less the commission. */
  lemma RedeemAtEvenProducts(db: Db, userId: string, betId: string, quotes: BetDetail -> seq<Bookmaker>, commission: int)
    requires Admitted(db, userId, betId)
    requires var s := RedeemWalk(db, betId, quotes, false);
      s.stop.Running? && Ratio(Product(s.prices), OddsProduct(s.visited)) == 1.0
    ensures RedeemSpec(db, userId, betId, quotes, commission).reply == Done
    ensures userId in RedeemSpec(db, userId, betId, quotes, commission).db.players
    ensures RedeemSpec(db, userId, betId, quotes, commission).db.players[userId].credits ==
            db.players[userId].credits + db.bets[betId].amount - (commission as real / 100.0) * db.bets[betId].amount
  {
    var bet := db.bets[betId];
    var s := RedeemWalk(db, betId, quotes, false);
    var payout := FinalPayout(Product(s.prices), OddsProduct(s.visited), bet.amount, commission);
    FinalPayoutAtEvenOdds(Product(s.prices), OddsProduct(s.visited), bet.amount, commission);
    RedeemRunningCredits(db, userId, betId, quotes, commission);
  }

  /** Every leg of the bet is stored with odds of at least 1 and still quoted at exactly those odds. */
  predicate UnchangedOdds(db: Db, betId: string, quotes: BetDetail -> seq<Bookmaker>)
    requires betId in db.bets && LegsStored(db, betId)
  {
    forall i :: 0 <= i < |db.bets[betId].data| ==>
      var leg := db.details[db.bets[betId].data[i]];
      leg.betOn.odds >= 1.0 && PriceLeg(leg, quotes(leg), false) == Quoted(leg.betOn.odds)
  }

  /** With unchanged odds the walk runs through and both products are the same number, at least 1. */
  lemma UnchangedOddsWalk(db: Db, betId: string, quotes: BetDetail -> seq<Bookmaker>)
    requires betId in db.bets && LegsStored(db, betId) && UnchangedOdds(db, betId, quotes)
    ensures var s := RedeemWalk(db, betId, quotes, false);
      s.stop.Running? && Product(s.prices) == OddsProduct(s.visited) && OddsProduct(s.visited) >= 1.0 &&
      Ratio(Product(s.prices), OddsProduct(s.visited)) == 1.0
  {
    var ls := LookUp(LoadLegs(db.details, db.bets[betId].data), quotes, false);
    LookUpLoaded(db, betId, quotes, false);
    WalkUnchangedOdds(ls);
    WalkRunning(ls);
    OddsProductAtLeastOne(Walk(ls).visited);
    RatioOfSame(OddsProduct(Walk(ls).visited));
  }
}
