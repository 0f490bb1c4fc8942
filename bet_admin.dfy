/**
 * The administrator's side of the wager ledger: `resolveBet`, which sets one leg's
 * status by hand and then settles or reverses its parent bet, and `updateBet`, which
 * edits a leg and its parent, moves the stake difference between the bet and the
 * player, and settles the parent again.  Neither runs in a session except the two
 * patches of `updateBet`, so every earlier write persists when a later step answers
 * with an error.
 */
module BetAdmin {
  import opened Wrappers
  import opened Records
  import opened WaitingQueue
  import opened ProcessingQueue
  import opened BetController

  /** `allBetDetails.some((detail) => detail.status !== "won")`. */
  predicate HasNotWon(legs: seq<BetDetail>)
  {
    exists i :: 0 <= i < |legs| && legs[i].status != Won
  }

  /** The `forEach` that takes each of `legs` off the waiting set. */
  method RemoveLegs(wq: SortedSet, legs: seq<BetDetail>)
    modifies wq
    ensures wq.entries == old(wq.entries) - MembersOf(legs)
  {
    assert old(wq.entries) - MembersOf([]) == old(wq.entries);
    var k := 0;
    while k < |legs|
      invariant 0 <= k <= |legs|
      invariant wq.entries == old(wq.entries) - MembersOf(legs[..k])
    {
      MembersOfSnoc(old(wq.entries), legs[..k], legs[k]);
      assert legs[..k + 1] == legs[..k] + [legs[k]];
      wq.Remove(Member(legs[k].id, legs[k].commenceTime));
      k := k + 1;
    }
    assert legs[..k] == legs;
  }

  // ------------------------------------------------------------------ resolveBet

  /** What `resolveBet` leaves behind: the store, the reply, and the legs whose waiting-set members it removed. */
  datatype Resolution = Resolution(db: Db, reply: Reply, removed: seq<BetDetail>)

  /**
   * `resolveBet(betDetailId, status)`.  The leg's status is written first.  A parent
   * that was won and now has a leg that is not won is reversed: the winnings are taken
   * back, or, when the player cannot cover them, the leg is set back to won and the
   * call answers 400.  A parent whose legs are now all won, and that was not won
   * before, is paid out; a missing player is then read for its username and throws.
   * Only the two paths that reach the end take the parent's legs off the waiting set.
   */
  function ResolveSpec(db: Db, detailId: string, status: Status): Resolution
  {
    if detailId !in db.details then Resolution(db, Refused(404), [])
    else
      var details := WithDetailStatus(db.details, detailId, status);
      var parentId := db.details[detailId].key;
      if parentId !in db.bets then Resolution(db.(details := details), Refused(404), [])
      else
        var parent := db.bets[parentId];
        var all := FoundDetails(details, parent.data);
        if parent.status == Won && HasNotWon(all) then
          if parent.player !in db.players then Resolution(db.(details := details), Refused(404), [])
          else if db.players[parent.player].credits < parent.possibleWinningAmount then
            Resolution(db.(details := WithDetailStatus(details, detailId, Won)), Refused(400), [])
          else
            Resolution(db.(details := details,
                           players := AddCredits(db.players, parent.player, -parent.possibleWinningAmount),
                           bets := WithBetStatus(db.bets, parentId, Lost)), Done, [])
        else if !HasNotWon(all) && parent.status != Won then
          var after := db.(details := details,
                           players := AddCredits(db.players, parent.player, parent.possibleWinningAmount),
                           bets := WithBetStatus(db.bets, parentId, Won));
          if parent.player !in db.players then Resolution(after, Crashed, [])
          else Resolution(after, Done, all)
        else
          Resolution(db.(details := details), Done, all)
  }

  method ResolveBet(db: Db, wq: SortedSet, detailId: string, status: Status) returns (after: Db, reply: Reply)
    modifies wq
    ensures after == ResolveSpec(db, detailId, status).db
    ensures reply == ResolveSpec(db, detailId, status).reply
    ensures wq.entries == old(wq.entries) - MembersOf(ResolveSpec(db, detailId, status).removed)
  {
    assert old(wq.entries) - MembersOf([]) == old(wq.entries);
    if detailId !in db.details {
      return db, Refused(404);
    }
    var details := WithDetailStatus(db.details, detailId, status);
    var parentId := details[detailId].key;
    if parentId !in db.bets {
      return db.(details := details), Refused(404);
    }
    var parent := db.bets[parentId];
    var all := FoundDetails(details, parent.data);
    var hasNotWon := HasNotWon(all);
    after := db.(details := details);
    if parent.status == Won && hasNotWon {
      if parent.player !in db.players {
        return after, Refused(404);
      }
      var player := db.players[parent.player];
      if player.credits < parent.possibleWinningAmount {
        return db.(details := WithDetailStatus(details, detailId, Won)), Refused(400);
      }
      after := after.(players := AddCredits(db.players, parent.player, -parent.possibleWinningAmount),
                      bets := WithBetStatus(db.bets, parentId, Lost));
      return after, Done;
    }
    if !hasNotWon && parent.status != Won {
      after := after.(players := AddCredits(db.players, parent.player, parent.possibleWinningAmount),
                      bets := WithBetStatus(db.bets, parentId, Won));
      if parent.player !in db.players {
        return after, Crashed;
      }
    }
    RemoveLegs(wq, all);
    reply := Done;
  }

  /** The legs `resolveBet` reads back: the parent's legs, with the new status already written. */
  function ResolvedLegs(db: Db, detailId: string, status: Status): seq<BetDetail>
    requires detailId in db.details && db.details[detailId].key in db.bets
  {
    FoundDetails(WithDetailStatus(db.details, detailId, status), db.bets[db.details[detailId].key].data)
  }

  /** A won parent that the player cannot pay back: the leg is set back to won and nothing else changes. */
  lemma ResolveRevertsWhenShort(db: Db, detailId: string, status: Status)
    requires detailId in db.details && db.details[detailId].key in db.bets
    requires db.bets[db.details[detailId].key].status == Won && HasNotWon(ResolvedLegs(db, detailId, status))
    requires db.bets[db.details[detailId].key].player in db.players
    requires db.players[db.bets[db.details[detailId].key].player].credits <
             db.bets[db.details[detailId].key].possibleWinningAmount
    ensures ResolveSpec(db, detailId, status).reply == Refused(400)
    ensures ResolveSpec(db, detailId, status).db == db.(details := WithDetailStatus(db.details, detailId, Won))
    ensures ResolveSpec(db, detailId, status).removed == []
  {
  }

  /** A won parent with a leg that is no longer won, and a player who can pay: the winnings go back and the parent is lost. */
  lemma ResolveClawsBack(db: Db, detailId: string, status: Status)
    requires detailId in db.details && db.details[detailId].key in db.bets
    requires db.bets[db.details[detailId].key].status == Won && HasNotWon(ResolvedLegs(db, detailId, status))
    requires db.bets[db.details[detailId].key].player in db.players
    requires db.players[db.bets[db.details[detailId].key].player].credits >=
             db.bets[db.details[detailId].key].possibleWinningAmount
    ensures var parent := db.bets[db.details[detailId].key];
            var r := ResolveSpec(db, detailId, status);
            r.reply == Done && r.removed == [] &&
            r.db.players[parent.player].credits == db.players[parent.player].credits - parent.possibleWinningAmount &&
            r.db.bets[db.details[detailId].key].status == Lost &&
            r.db.details[detailId].status == status
  {
  }

  /** A parent whose legs are now all won, and that was not won: the player gains the winnings and the parent is won. */
  lemma ResolvePaysWinner(db: Db, detailId: string, status: Status)
    requires detailId in db.details && db.details[detailId].key in db.bets
    requires db.bets[db.details[detailId].key].status != Won && !HasNotWon(ResolvedLegs(db, detailId, status))
    requires db.bets[db.details[detailId].key].player in db.players
    ensures var parent := db.bets[db.details[detailId].key];
            var r := ResolveSpec(db, detailId, status);
            r.reply == Done && r.removed == ResolvedLegs(db, detailId, status) &&
            r.db.players[parent.player].credits == db.players[parent.player].credits + parent.possibleWinningAmount &&
            r.db.bets[db.details[detailId].key].status == Won
  {
  }

  /** Only the parent's player can gain or lose credits, only the leg and its parent change, and no payout changes. */
  lemma ResolveTouchesOnlyParent(db: Db, detailId: string, status: Status)
    ensures var r := ResolveSpec(db, detailId, status);
            r.db.players.Keys == db.players.Keys && r.db.bets.Keys == db.bets.Keys &&
            r.db.details.Keys == db.details.Keys && r.db.transfers == db.transfers && r.db.users == db.users
    ensures PayoutsKept(db, ResolveSpec(db, detailId, status).db)
    ensures forall p :: p in db.players && (detailId !in db.details || db.details[detailId].key !in db.bets ||
                                            p != db.bets[db.details[detailId].key].player) ==>
              ResolveSpec(db, detailId, status).db.players[p] == db.players[p]
    ensures forall k :: k in db.details && k != detailId ==> ResolveSpec(db, detailId, status).db.details[k] == db.details[k]
    ensures forall b :: b in db.bets && (detailId !in db.details || b != db.details[detailId].key) ==>
              ResolveSpec(db, detailId, status).db.bets[b] == db.bets[b]
  {
    var legStatus, delta, betStatus := ResolveEffect(db, detailId, status);
  }

  /**
   * Every path of `resolveBet` writes at most the leg's status, the parent's player's
   * credits and the parent's status: the leg ends with `legStatus`, the credits move by
   * `delta` and the parent ends with `betStatus`.
   */
  lemma ResolveEffect(db: Db, detailId: string, status: Status) returns (legStatus: Status, delta: real, betStatus: Status)
    ensures detailId !in db.details ==> ResolveSpec(db, detailId, status).db == db
    ensures detailId in db.details && db.details[detailId].key !in db.bets ==>
              ResolveSpec(db, detailId, status).db == db.(details := WithDetailStatus(db.details, detailId, status))
    ensures detailId in db.details && db.details[detailId].key in db.bets ==>
              var parentId := db.details[detailId].key;
              ResolveSpec(db, detailId, status).db ==
                db.(details := WithDetailStatus(db.details, detailId, legStatus),
                    players := AddCredits(db.players, db.bets[parentId].player, delta),
                    bets := WithBetStatus(db.bets, parentId, betStatus))
  {
    legStatus, delta, betStatus := status, 0.0, Pending;
    var r := ResolveSpec(db, detailId, status);
    if detailId in db.details && db.details[detailId].key in db.bets {
      var details := WithDetailStatus(db.details, detailId, status);
      var parentId := db.details[detailId].key;
      var parent := db.bets[parentId];
      var all := FoundDetails(details, parent.data);
      betStatus := parent.status;
      assert WithBetStatus(db.bets, parentId, parent.status) == db.bets;
      assert AddCredits(db.players, parent.player, 0.0) == db.players;
      if parent.status == Won && HasNotWon(all) {
        if parent.player !in db.players {
        } else if db.players[parent.player].credits < parent.possibleWinningAmount {
          legStatus := Won;
          StatusTwice(db.details, detailId, status, Won);
        } else {
          delta, betStatus := -parent.possibleWinningAmount, Lost;
        }
      } else if !HasNotWon(all) && parent.status != Won {
        delta, betStatus := parent.possibleWinningAmount, Won;
      }
    }
  }

  /**
   * Resolving the same leg to the same status a second time changes nothing: the
   * parent was already settled or reversed, or the player still cannot pay.  In
   * particular no repeated call credits or debits the player again.
   */
  lemma ResolveTwiceIsOnce(db: Db, detailId: string, status: Status)
    ensures ResolveSpec(ResolveSpec(db, detailId, status).db, detailId, status).db == ResolveSpec(db, detailId, status).db
  {
    var r := ResolveSpec(db, detailId, status);
    if detailId in db.details {
      var details := WithDetailStatus(db.details, detailId, status);
      var parentId := db.details[detailId].key;
      StatusTwice(db.details, detailId, status, status);
      if parentId !in db.bets {
        assert r.db == db.(details := details);
      } else {
        var parent := db.bets[parentId];
        var all := FoundDetails(details, parent.data);
        if parent.status == Won && HasNotWon(all) {
          if parent.player !in db.players {
            assert r.db == db.(details := details);
          } else if db.players[parent.player].credits < parent.possibleWinningAmount {
            var reverted := WithDetailStatus(details, detailId, Won);
            StatusTwice(db.details, detailId, status, Won);
            StatusTwice(db.details, detailId, Won, status);
            assert r.db == db.(details := reverted);
          } else {
            var after := db.(details := details,
                             players := AddCredits(db.players, parent.player, -parent.possibleWinningAmount),
                             bets := WithBetStatus(db.bets, parentId, Lost));
            assert r.db == after;
            assert after.bets[parentId] == parent.(status := Lost);
          }
        } else if !HasNotWon(all) && parent.status != Won {
          var after := db.(details := details,
                           players := AddCredits(db.players, parent.player, parent.possibleWinningAmount),
                           bets := WithBetStatus(db.bets, parentId, Won));
          assert r.db == after;
          assert after.bets[parentId] == parent.(status := Won);
        } else {
          assert r.db == db.(details := details);
        }
      }
    }
  }

  /** Writing a leg's status twice keeps the second write. */
  lemma StatusTwice(details: map<string, BetDetail>, id: string, first: Status, second: Status)
    ensures WithDetailStatus(WithDetailStatus(details, id, first), id, second) == WithDetailStatus(details, id, second)
  {
  }

  // ------------------------------------------------------------------ updateBet

  /** `betDetails`: the leg to edit and the fields to write; an absent `status` is left as it was. */
  datatype DetailPatch = DetailPatch(detailId: string, status: Option<Status>)

  /** `betData`: the new stake and, optionally, a new status for the parent bet. */
  datatype BetPatch = BetPatch(amount: real, status: Option<Status>)

  /** The queue `updateBet` takes the edited leg off, if any. */
  datatype Drop = NoDrop | DropWaiting(m: Member) | DropProcessing(item: BetDetail)

  /** What `updateBet` leaves in the store, and its reply. */
  datatype Edit = Edit(db: Db, reply: Reply)

  /** A patched field: the new value when the patch has one. */
  function Patched(given: Option<Status>, current: Status): Status
  {
    if given.Some? then given.value else current
  }

  /**
   * The queue removal for a pending leg that is being given another status (an absent
   * status counts as another one): once its game has started, its waiting-set member;
   * before that, the leg itself from the processing list.
   */
  function DropFor(existing: BetDetail, status: Option<Status>, now: int): (r: Drop)
    ensures r.NoDrop? <==> existing.status != Pending || status == Some(Pending)
    ensures r.DropWaiting? ==> now >= existing.commenceTime && r.m == Member(existing.id, existing.commenceTime)
    ensures r.DropProcessing? ==> now < existing.commenceTime && r.item == existing
  {
    if existing.status == Pending && status != Some(Pending) then
      if now >= existing.commenceTime then DropWaiting(Member(existing.id, existing.commenceTime))
      else DropProcessing(existing)
    else NoDrop
  }

  /** The stake change: an increase is debited, a decrease refunded, and an equal stake saves nothing. */
  function MoveStake(players: map<string, Account>, playerId: string, previous: real, next: real): map<string, Account>
  {
    if next > previous then AddCredits(players, playerId, -(next - previous))
    else if next < previous then AddCredits(players, playerId, previous - next)
    else players
  }

  /**
   * The settling step after the patches, on the re-read parent bet `patched` and its
   * legs: all won and the parent not won pays the winnings; a parent that was won or
   * redeemed before the edit and now has a leg that is not won loses them, when the
   * player can cover them, and becomes lost either way.  Both mark it resolved.
   */
  function Resettle(players: map<string, Account>, bets: map<string, Bet>, betId: string, playerId: string,
                    previous: Status, patched: Bet, legs: seq<BetDetail>): (map<string, Account>, map<string, Bet>)
    requires playerId in players
  {
    if !HasNotWon(legs) && patched.status != Won then
      (AddCredits(players, playerId, patched.possibleWinningAmount), SetBetStatus(bets, betId, Won, true))
    else if (previous == Won || previous == Redeem) && HasNotWon(legs) then
      (if players[playerId].credits >= patched.possibleWinningAmount
       then AddCredits(players, playerId, -patched.possibleWinningAmount) else players,
       SetBetStatus(bets, betId, Lost, true))
    else (players, bets)
  }

  /** Whether `checkIfBetIsInProcessingQueue(detailId)` finds the leg in the processing list `queued`. */
  predicate Queued(queued: seq<BetDetail>, detailId: string)
  {
    exists i :: 0 <= i < |queued| && queued[i].id == detailId
  }

  /**
   * The queue removal `updateBet` makes: none when it answers before the 409 check or
   * at it, otherwise the one `DropFor` chooses for the stored leg.
   */
  function UpdateDrop(db: Db, queued: seq<BetDetail>, now: int, betId: string, betDetails: Option<DetailPatch>,
                      betData: Option<BetPatch>): Drop
  {
    if betId == [] || betData.None? || betDetails.None? || betDetails.value.detailId !in db.details ||
       Queued(queued, betDetails.value.detailId) then NoDrop
    else DropFor(db.details[betDetails.value.detailId], betDetails.value.status, now)
  }

  /** `updateBet(betId, betDetails, betData)` against the store, the processing list `queued` and the clock `now`. */
  function UpdateSpec(db: Db, queued: seq<BetDetail>, now: int, betId: string,
                      betDetails: Option<DetailPatch>, betData: Option<BetPatch>): Edit
  {
    if betId == [] || betData.None? then Edit(db, Refused(400))
    else if betDetails.None? then Edit(db, Crashed)
    else
      var patch := betDetails.value;
      if patch.detailId !in db.details then Edit(db, Refused(404))
      else if Queued(queued, patch.detailId) then Edit(db, Refused(409))
      else
        var existing := db.details[patch.detailId];
        if betId !in db.bets then Edit(db, Refused(404))
        else
          var parent := db.bets[betId];
          var stake := betData.value.amount;
          if parent.player !in db.players then Edit(db, Refused(404))
          else if stake > parent.amount && db.players[parent.player].credits < stake - parent.amount then
            Edit(db, Refused(400))
          else
            var players := MoveStake(db.players, parent.player, parent.amount, stake);
            var details := db.details[patch.detailId := existing.(status := Patched(patch.status, existing.status),
                                                                   isResolved := true)];
            var restaked := parent.(amount := stake);
            var bets := db.bets[betId := restaked.(status := Patched(betData.value.status, restaked.status))];
            var settled := Resettle(players, bets, betId, parent.player, parent.status, bets[betId],
                                    FoundDetails(details, bets[betId].data));
            Edit(db.(players := settled.0, bets := settled.1, details := details), Done)
  }

  method UpdateBet(db: Db, wq: SortedSet, pq: Queue, now: int, betId: string,
                   betDetails: Option<DetailPatch>, betData: Option<BetPatch>) returns (after: Db, reply: Reply)
    modifies wq, pq
    ensures after == UpdateSpec(db, old(pq.items), now, betId, betDetails, betData).db
    ensures reply == UpdateSpec(db, old(pq.items), now, betId, betDetails, betData).reply
    ensures var drop := UpdateDrop(db, old(pq.items), now, betId, betDetails, betData);
            wq.entries == (if drop.DropWaiting? then Without(old(wq.entries), drop.m) else old(wq.entries)) &&
            pq.items == (if drop.DropProcessing? then RemoveAll(old(pq.items), drop.item) else old(pq.items))
  {
    if betId == [] || betData.None? {
      return db, Refused(400);
    }
    if betDetails.None? {
      return db, Crashed;
    }
    var patch := betDetails.value;
    if patch.detailId !in db.details {
      return db, Refused(404);
    }
    var existing := db.details[patch.detailId];
    var inProcessing := pq.CheckIfBetIsInProcessingQueue(patch.detailId);
    if inProcessing {
      return db, Refused(409);
    }
    DropLeg(wq, pq, existing, patch.status, now);
    if betId !in db.bets {
      return db, Refused(404);
    }
    var parent := db.bets[betId];
    if parent.player !in db.players {
      return db, Refused(404);
    }
    var player := db.players[parent.player];
    var stake := betData.value.amount;
    var players := db.players;
    if stake > parent.amount {
      var additional := stake - parent.amount;
      if player.credits < additional {
        return db, Refused(400);
      }
      players := AddCredits(players, parent.player, -additional);
    } else if stake < parent.amount {
      players := AddCredits(players, parent.player, parent.amount - stake);
    }
    assert players == MoveStake(db.players, parent.player, parent.amount, stake);
    var restaked := parent.(amount := stake);
    var details := db.details[patch.detailId := existing.(status := Patched(patch.status, existing.status),
                                                           isResolved := true)];
    var bets := db.bets[betId := restaked.(status := Patched(betData.value.status, restaked.status))];
    var reread := bets[betId];
    players, bets := SettleEdit(players, bets, betId, parent.player, parent.status, reread,
                                FoundDetails(details, reread.data));
    return db.(players := players, bets := bets, details := details), Done;
  }

  /** The queue removal of `updateBet` for the leg `existing` that is being given `status`. */
  method DropLeg(wq: SortedSet, pq: Queue, existing: BetDetail, status: Option<Status>, now: int)
    modifies wq, pq
    ensures var drop := DropFor(existing, status, now);
            wq.entries == (if drop.DropWaiting? then Without(old(wq.entries), drop.m) else old(wq.entries)) &&
            pq.items == (if drop.DropProcessing? then RemoveAll(old(pq.items), drop.item) else old(pq.items))
  {
    if existing.status == Pending && status != Some(Pending) {
      if now >= existing.commenceTime {
        wq.Remove(Member(existing.id, existing.commenceTime));
      } else {
        var _ := pq.RemoveItem(existing);
      }
    }
  }

  /** The settling step of `updateBet` on the re-read parent `patched` and its legs. */
  method SettleEdit(players0: map<string, Account>, bets0: map<string, Bet>, betId: string, playerId: string,
                    previous: Status, patched: Bet, legs: seq<BetDetail>)
    returns (players: map<string, Account>, bets: map<string, Bet>)
    requires playerId in players0
    ensures (players, bets) == Resettle(players0, bets0, betId, playerId, previous, patched, legs)
  {
    players, bets := players0, bets0;
    var hasNotWon := HasNotWon(legs);
    if !hasNotWon && patched.status != Won {
      players := AddCredits(players, playerId, patched.possibleWinningAmount);
      bets := SetBetStatus(bets, betId, Won, true);
    } else if (previous == Won || previous == Redeem) && hasNotWon {
      if players[playerId].credits >= patched.possibleWinningAmount {
        players := AddCredits(players, playerId, -patched.possibleWinningAmount);
      }
      bets := SetBetStatus(bets, betId, Lost, true);
    }
  }

  /** A leg that sits in the processing list cannot be edited: 409, and nothing changes. */
  lemma UpdateRefusedWhileProcessing(db: Db, queued: seq<BetDetail>, now: int, betId: string,
                                     detailId: string, status: Option<Status>, betData: BetPatch)
    requires betId != [] && detailId in db.details && Queued(queued, detailId)
    ensures UpdateSpec(db, queued, now, betId, Some(DetailPatch(detailId, status)), Some(betData)) ==
            Edit(db, Refused(409))
    ensures UpdateDrop(db, queued, now, betId, Some(DetailPatch(detailId, status)), Some(betData)) == NoDrop
  {
  }

  /** Raising the stake by more than the player holds answers 400 and writes nothing to the store. */
  lemma UpdateRefusesShortIncrease(db: Db, queued: seq<BetDetail>, now: int, betId: string,
                                   patch: DetailPatch, betData: BetPatch)
    requires betId != [] && patch.detailId in db.details && !Queued(queued, patch.detailId)
    requires betId in db.bets && db.bets[betId].player in db.players
    requires betData.amount > db.bets[betId].amount
    requires db.players[db.bets[betId].player].credits < betData.amount - db.bets[betId].amount
    ensures UpdateSpec(db, queued, now, betId, Some(patch), Some(betData)).reply == Refused(400)
    ensures UpdateSpec(db, queued, now, betId, Some(patch), Some(betData)).db == db
  {
  }

  /** Whatever its direction, the stake change moves exactly the difference: credits fall by new − previous. */
  lemma MoveStakeDifference(players: map<string, Account>, playerId: string, previous: real, next: real)
    requires playerId in players
    ensures MoveStake(players, playerId, previous, next).Keys == players.Keys
    ensures MoveStake(players, playerId, previous, next)[playerId] ==
            players[playerId].(credits := players[playerId].credits - (next - previous))
    ensures forall p :: p in players && p != playerId ==> MoveStake(players, playerId, previous, next)[p] == players[p]
  {
  }

  /**
   * An accepted edit: the stake is the new one, the leg carries the patched status and
   * is resolved, and the player's credits move by the stake difference and then by
   * the settling step: plus the winnings, minus them, or neither.
   */
  lemma UpdateSettles(db: Db, queued: seq<BetDetail>, now: int, betId: string, patch: DetailPatch, betData: BetPatch)
    requires betId != [] && patch.detailId in db.details && !Queued(queued, patch.detailId)
    requires betId in db.bets && db.bets[betId].player in db.players
    requires betData.amount <= db.bets[betId].amount ||
             db.players[db.bets[betId].player].credits >= betData.amount - db.bets[betId].amount
    ensures var r := UpdateSpec(db, queued, now, betId, Some(patch), Some(betData));
            var parent := db.bets[betId];
            var credits := db.players[parent.player].credits - (betData.amount - parent.amount);
            var leg := r.db.details[patch.detailId];
            var legs := FoundDetails(r.db.details, parent.data);
            var win := parent.possibleWinningAmount;
            var status := Patched(betData.status, parent.status);
            r.reply == Done && UpdateDrop(db, queued, now, betId, Some(patch), Some(betData)) == DropFor(db.details[patch.detailId], patch.status, now) &&
            r.db.bets[betId].amount == betData.amount &&
            leg.status == Patched(patch.status, db.details[patch.detailId].status) && leg.isResolved &&
            if !HasNotWon(legs) && status != Won then
              r.db.players[parent.player].credits == credits + win && r.db.bets[betId].status == Won
            else if (parent.status == Won || parent.status == Redeem) && HasNotWon(legs) then
              r.db.players[parent.player].credits == (if credits >= win then credits - win else credits) &&
              r.db.bets[betId].status == Lost
            else
              r.db.players[parent.player].credits == credits && r.db.bets[betId].status == status
  {
    var parent := db.bets[betId];
    MoveStakeDifference(db.players, parent.player, parent.amount, betData.amount);
  }

  /**
   * Before its game starts a pending leg is on the waiting set, yet the edit takes
   * it off the processing list instead: when every leg is stored under its own id,
   * that removal never removes anything, because the 409 check has just found no
   * list entry with the leg's id.
   */
  lemma UpdateProcessingDropIsEmpty(db: Db, queued: seq<BetDetail>, now: int, betId: string,
                                    betDetails: Option<DetailPatch>, betData: Option<BetPatch>)
    requires Keyed(db.details)
    ensures UpdateDrop(db, queued, now, betId, betDetails, betData).DropProcessing? ==>
            RemoveAll(queued, UpdateDrop(db, queued, now, betId, betDetails, betData).item) == queued
  {
    var drop := UpdateDrop(db, queued, now, betId, betDetails, betData);
    if drop.DropProcessing? {
      var item := drop.item;
      assert item.id == betDetails.value.detailId;
      forall i | 0 <= i < |queued|
        ensures queued[i] != item
      {
        assert queued[i].id != betDetails.value.detailId;
      }
      RemoveAllAbsent(queued, item);
    }
  }

  /** Removing an item that the list does not hold leaves the list as it was. */
  lemma {:induction false} RemoveAllAbsent(items: seq<BetDetail>, x: BetDetail)
    requires forall i :: 0 <= i < |items| ==> items[i] != x
    ensures RemoveAll(items, x) == items
  {
    if items != [] {
      RemoveAllAbsent(items[1..], x);
    }
  }
}
