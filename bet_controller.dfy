/**
 * The wager ledger: placing a bet (debit the stake, save the legs, schedule them on the
 * waiting set), quoting and performing an early redemption, an administrator's manual
 * resolution of a leg, and an administrator's edit of a bet.  The document store is the
 * value `Db`; the two Redis structures and the placing player's session are objects.
 */
module BetController {
  import opened Wrappers
  import opened Records
  import opened Utils
  import opened WaitingQueue
  import opened ProcessingQueue
  import opened PlayerSocket

  /** How a request handler ended: a 200 reply, an http-errors status, or an uncaught TypeError handed to the error handler. */
  datatype Reply = Done | Refused(code: int) | Crashed

  /** `findByIdAndUpdate` of the status alone; a missing id changes nothing. */
  function WithDetailStatus(details: map<string, BetDetail>, id: string, status: Status): (r: map<string, BetDetail>)
    ensures r.Keys == details.Keys
    ensures id in details ==> r[id] == details[id].(status := status)
    ensures forall other :: other in details && other != id ==> r[other] == details[other]
  {
    if id in details then details[id := details[id].(status := status)] else details
  }

  /** Saving a parent bet whose status was assigned: only the status is written. */
  function WithBetStatus(bets: map<string, Bet>, id: string, status: Status): (r: map<string, Bet>)
    ensures r.Keys == bets.Keys
    ensures id in bets ==> r[id] == bets[id].(status := status)
    ensures forall other :: other in bets && other != id ==> r[other] == bets[other]
  {
    if id in bets then bets[id := bets[id].(status := status)] else bets
  }

  /** The waiting-set members of some legs: the JSON of `{betId, commence_time}` for each. */
  function MembersOf(legs: seq<BetDetail>): (r: set<Member>)
    ensures forall l :: l in legs ==> Member(l.id, l.commenceTime) in r
    ensures forall m :: m in r ==> exists l :: l in legs && m == Member(l.id, l.commenceTime)
  {
    set l | l in legs :: Member(l.id, l.commenceTime)
  }

  /** Taking one more leg off the waiting set removes its member too. */
  lemma MembersOfSnoc(entries: map<Member, real>, legs: seq<BetDetail>, leg: BetDetail)
    ensures Without(entries - MembersOf(legs), Member(leg.id, leg.commenceTime)) == entries - MembersOf(legs + [leg])
  {
    assert MembersOf(legs + [leg]) == MembersOf(legs) + {Member(leg.id, leg.commenceTime)};
  }

  // ------------------------------------------------------------------ placement

  /** Why `placeBet` rejected a wager.  Each aborts the session, so no debit and no record persists. */
  datatype PlaceError = NotConnected | PlayerNotFound | InsufficientCredits | ZeroStake | ParentMissing | EmptySlip

  /** `cumulativeOdds`: the product of the legs' locked-in odds, in leg order. */
  function OddsProduct(legs: seq<BetDetail>): real
  {
    if legs == [] then 1.0 else OddsProduct(legs[..|legs| - 1]) * legs[|legs| - 1].betOn.odds
  }

  /** `possibleWinningAmount`: the cumulative odds times the stake. */
  function PossibleWin(inputs: seq<BetDetail>, amount: real): real
  {
    OddsProduct(inputs) * amount
  }

  /** One more leg multiplies the product by its odds. */
  lemma OddsProductStep(legs: seq<BetDetail>, j: int, product: real)
    requires 0 <= j < |legs| && product == OddsProduct(legs[..j])
    ensures product * legs[j].betOn.odds == OddsProduct(legs[..j + 1])
  {
    assert legs[..j + 1][..j] == legs[..j];
  }

  /** Odds of at least 1 each, as decimal odds are, multiply to at least 1. */
  lemma {:induction false} OddsProductAtLeastOne(legs: seq<BetDetail>)
    requires forall i :: 0 <= i < |legs| ==> legs[i].betOn.odds >= 1.0
    ensures OddsProduct(legs) >= 1.0
  {
    if legs != [] {
      var prefix := legs[..|legs| - 1];
      assert forall i :: 0 <= i < |prefix| ==> prefix[i] == legs[i];
      OddsProductAtLeastOne(prefix);
      var p := OddsProduct(prefix);
      var o := legs[|legs| - 1].betOn.odds;
      assert p * o >= p * 1.0 by { assert p * (o - 1.0) >= 0.0; }
    }
  }

  /**
   * A pending leg of any wager on the same event and market whose parent bet is gone.
   * The duplicate lookup of `placeBet` reads every such rival leg and its parent, and
   * this is the only case in which it throws.
   */
  predicate OrphanedRival(db: Db, leg: BetDetail)
  {
    exists id :: id in db.details && db.details[id].eventId == leg.eventId && db.details[id].status == Pending &&
      db.details[id].category == leg.category && db.details[id].key !in db.bets
  }

  predicate Orphaned(db: Db, inputs: seq<BetDetail>)
  {
    exists i :: 0 <= i < |inputs| && OrphanedRival(db, inputs[i])
  }

  /** The slip entry's fields spread into a new leg document with its own id, the parent's id as key, and status pending. */
  function NewLeg(input: BetDetail, id: string, betId: string): BetDetail
  {
    input.(id := id, key := betId, status := Pending, isResolved := false)
  }

  /** The legs the placement loop saves, in order: entry `i` under id `ids[i]`, pending under the parent. */
  function NewLegs(inputs: seq<BetDetail>, ids: seq<string>, betId: string): (r: seq<BetDetail>)
    requires |ids| == |inputs|
    ensures |r| == |inputs|
    ensures forall i :: 0 <= i < |r| ==>
      r[i] == inputs[i].(id := ids[i], key := betId, status := Pending, isResolved := false)
  {
    if inputs == [] then []
    else NewLegs(inputs[..|inputs| - 1], ids[..|ids| - 1], betId) + [NewLeg(inputs[|inputs| - 1], ids[|ids| - 1], betId)]
  }

  /** The leg documents after saving `legs` one after the other. */
  function SaveAll(details: map<string, BetDetail>, legs: seq<BetDetail>): map<string, BetDetail>
  {
    if legs == [] then details
    else SaveAll(details, legs[..|legs| - 1])[legs[|legs| - 1].id := legs[|legs| - 1]]
  }

  /** The waiting set after `scheduleBetDetailJob` of each leg in turn. */
  function ScheduleAll(entries: map<Member, real>, legs: seq<BetDetail>): map<Member, real>
  {
    if legs == [] then entries
    else
      var l := legs[|legs| - 1];
      ScheduleAll(entries, legs[..|legs| - 1])[Member(l.id, l.commenceTime) := SecondsScore(l.commenceTime)]
  }

  lemma NewLegsStep(inputs: seq<BetDetail>, ids: seq<string>, betId: string, j: int)
    requires |ids| == |inputs| && 0 <= j < |inputs|
    ensures NewLegs(inputs[..j + 1], ids[..j + 1], betId) == NewLegs(inputs[..j], ids[..j], betId) + [NewLeg(inputs[j], ids[j], betId)]
  {
    assert inputs[..j + 1][..j] == inputs[..j];
    assert ids[..j + 1][..j] == ids[..j];
  }

  lemma SaveAllSnoc(details: map<string, BetDetail>, legs: seq<BetDetail>, leg: BetDetail)
    ensures SaveAll(details, legs + [leg]) == SaveAll(details, legs)[leg.id := leg]
  {
    assert (legs + [leg])[..|legs|] == legs;
  }

  lemma ScheduleAllSnoc(entries: map<Member, real>, legs: seq<BetDetail>, leg: BetDetail)
    ensures ScheduleAll(entries, legs + [leg]) == ScheduleAll(entries, legs)[Member(leg.id, leg.commenceTime) := SecondsScore(leg.commenceTime)]
  {
    assert (legs + [leg])[..|legs|] == legs;
  }

  /** The slip ids of the placed entries (`betDetailData.id`), which placement removes from the slip. */
  function SlipIds(inputs: seq<BetDetail>): set<string>
  {
    if inputs == [] then {} else SlipIds(inputs[..|inputs| - 1]) + {inputs[|inputs| - 1].id}
  }

  /** The slip ids are exactly the ids of the placed entries. */
  lemma {:induction false} SlipIdsMembers(inputs: seq<BetDetail>)
    ensures forall x :: x in SlipIds(inputs) <==> exists i :: 0 <= i < |inputs| && inputs[i].id == x
  {
    if inputs != [] {
      var prefix := inputs[..|inputs| - 1];
      SlipIdsMembers(prefix);
      assert forall i :: 0 <= i < |prefix| ==> prefix[i] == inputs[i];
    }
  }

  lemma SlipIdsStep(inputs: seq<BetDetail>, j: int)
    requires 0 <= j < |inputs|
    ensures SlipIds(inputs[..j + 1]) == SlipIds(inputs[..j]) + {inputs[j].id}
  {
    assert inputs[..j + 1][..j] == inputs[..j];
  }

  /** The slip and rooms after the saving loop has removed the entries of `inputs`, one after the other, for the player `username`. */
  function Removals(st: SlipRooms, username: string, inputs: seq<BetDetail>): (r: SlipRooms)
    ensures r.betSlip == st.betSlip - SlipIds(inputs)
  {
    if inputs == [] then st
    else Removal(Removals(st, username, inputs[..|inputs| - 1]), username, inputs[|inputs| - 1].id)
  }

  lemma RemovalsStep(st: SlipRooms, username: string, inputs: seq<BetDetail>, j: int)
    requires 0 <= j < |inputs|
    ensures Removals(st, username, inputs[..j + 1]) == Removal(Removals(st, username, inputs[..j]), username, inputs[j].id)
  {
    assert inputs[..j + 1][..j] == inputs[..j];
  }

  /**
   * `placeBet` on the store: the checks in the order the code makes them, then the
   * debit, the legs and the parent bet, all in one committed session.  An empty slip
   * saves nothing in the loop and then throws on the first leg's name, which aborts the
   * session and so undoes the debit and the parent bet.  `connected` is
   * whether the player has a socket; `betId` and `legIds` are the ObjectIds the code
   * generates, one per leg.
   */
  function PlaceBetSpec(db: Db, connected: bool, userId: string, inputs: seq<BetDetail>, amount: real,
                        betType: BetKind, betId: string, legIds: seq<string>): Result<Db, PlaceError>
    requires |legIds| == |inputs|
  {
    if !connected then Err(NotConnected)
    else if userId !in db.players then Err(PlayerNotFound)
    else if db.players[userId].credits < amount then Err(InsufficientCredits)
    else if amount == 0.0 then Err(ZeroStake)
    else if Orphaned(db, inputs) then Err(ParentMissing)
    else if inputs == [] then Err(EmptySlip)
    else
      var bet := Bet(betId, userId, legIds, amount, PossibleWin(inputs, amount), Pending, 0, betType, false);
      Ok(db.(players := AddCredits(db.players, userId, -amount),
             details := SaveAll(db.details, NewLegs(inputs, legIds, betId)),
             bets := db.bets[betId := bet]))
  }

  /** `scheduleBetDetailJob`: ZADD of the leg's member with its commence time in seconds as score. */
  method ScheduleBetDetailJob(wq: SortedSet, leg: BetDetail)
    modifies wq
    ensures wq.entries == old(wq.entries)[Member(leg.id, leg.commenceTime) := SecondsScore(leg.commenceTime)]
  {
    wq.Add(Member(leg.id, leg.commenceTime), SecondsScore(leg.commenceTime));
  }

  /** The duplicate lookup of `placeBet`: whether some entry has an orphaned pending rival leg. */
  method FindOrphanedRival(db: Db, inputs: seq<BetDetail>) returns (found: bool)
    ensures found <==> Orphaned(db, inputs)
  {
    var i := 0;
    while i < |inputs|
      invariant 0 <= i <= |inputs|
      invariant forall k :: 0 <= k < i ==> !OrphanedRival(db, inputs[k])
    {
      if OrphanedRival(db, inputs[i]) {
        return true;
      }
      i := i + 1;
    }
    return false;
  }

  /** One pass of the saving loop: save the leg, remove its entry from the slip, schedule it. */
  method SaveLeg(saved: map<string, BetDetail>, wq: SortedSet, socket: Player, input: BetDetail, id: string, betId: string)
    returns (next: map<string, BetDetail>, leg: BetDetail)
    requires socket.Valid()
    modifies wq, socket, socket.reg
    ensures leg == NewLeg(input, id, betId) && next == saved[leg.id := leg]
    ensures wq.entries == old(wq.entries)[Member(leg.id, leg.commenceTime) := SecondsScore(leg.commenceTime)]
    ensures socket.Valid() && socket.betSlip == old(socket.betSlip) - {input.id}
    ensures socket.Rooms() == Removal(old(socket.Rooms()), socket.username, input.id)
    ensures socket.credits == old(socket.credits) && socket.currentRoom == old(socket.currentRoom)
    ensures socket.reg.activeRooms == old(socket.reg.activeRooms)
  {
    leg := NewLeg(input, id, betId);
    next := saved[leg.id := leg];
    var _ := socket.RemoveBetFromSlip(input.id);
    ScheduleBetDetailJob(wq, leg);
  }

  /**
   * The saving loop of `placeBet`: it multiplies the odds into `cumulativeOdds`, saves
   * each leg, removes its entry from the session's slip and schedules the leg.
   */
  method SaveLegs(details: map<string, BetDetail>, wq: SortedSet, socket: Player, inputs: seq<BetDetail>,
                  betId: string, legIds: seq<string>) returns (saved: map<string, BetDetail>, cumulativeOdds: real)
    requires |legIds| == |inputs|
    requires socket.Valid()
    modifies wq, socket, socket.reg
    ensures saved == SaveAll(details, NewLegs(inputs, legIds, betId))
    ensures cumulativeOdds == OddsProduct(inputs)
    ensures wq.entries == ScheduleAll(old(wq.entries), NewLegs(inputs, legIds, betId))
    ensures socket.Valid() && socket.betSlip == old(socket.betSlip) - SlipIds(inputs)
    ensures socket.Rooms() == Removals(old(socket.Rooms()), socket.username, inputs)
    ensures socket.credits == old(socket.credits) && socket.currentRoom == old(socket.currentRoom)
    ensures socket.reg.activeRooms == old(socket.reg.activeRooms)
  {
    saved := details;
    cumulativeOdds := 1.0;
    ghost var entries := wq.entries;
    ghost var slip := socket.betSlip;
    ghost var rooms := socket.Rooms();
    var j := 0;
    while j < |inputs|
      invariant 0 <= j <= |inputs|
      invariant cumulativeOdds == OddsProduct(inputs[..j])
      invariant saved == SaveAll(details, NewLegs(inputs[..j], legIds[..j], betId))
      invariant wq.entries == ScheduleAll(entries, NewLegs(inputs[..j], legIds[..j], betId))
      invariant socket.Valid() && socket.betSlip == slip - SlipIds(inputs[..j])
      invariant socket.Rooms() == Removals(rooms, socket.username, inputs[..j])
      invariant socket.credits == old(socket.credits) && socket.currentRoom == old(socket.currentRoom)
      invariant socket.reg.activeRooms == old(socket.reg.activeRooms)
    {
      saved, cumulativeOdds := SaveNext(details, saved, cumulativeOdds, wq, socket, inputs, betId, legIds, entries, slip, rooms, j);
      j := j + 1;
    }
    assert inputs[..j] == inputs && legIds[..j] == legIds;
  }

  /** One pass of the saving loop of `placeBet`, on the `j`-th leg. */
  method SaveNext(details: map<string, BetDetail>, saved0: map<string, BetDetail>, odds0: real, wq: SortedSet,
                  socket: Player, inputs: seq<BetDetail>, betId: string, legIds: seq<string>,
                  ghost entries: map<Member, real>, ghost slip: map<string, SlipEntry>, ghost rooms: SlipRooms, j: int)
    returns (saved: map<string, BetDetail>, cumulativeOdds: real)
    requires |legIds| == |inputs| && 0 <= j < |inputs|
    requires odds0 == OddsProduct(inputs[..j])
    requires saved0 == SaveAll(details, NewLegs(inputs[..j], legIds[..j], betId))
    requires wq.entries == ScheduleAll(entries, NewLegs(inputs[..j], legIds[..j], betId))
    requires socket.Valid() && socket.betSlip == slip - SlipIds(inputs[..j])
    requires socket.Rooms() == Removals(rooms, socket.username, inputs[..j])
    modifies wq, socket, socket.reg
    ensures cumulativeOdds == OddsProduct(inputs[..j + 1])
    ensures saved == SaveAll(details, NewLegs(inputs[..j + 1], legIds[..j + 1], betId))
    ensures wq.entries == ScheduleAll(entries, NewLegs(inputs[..j + 1], legIds[..j + 1], betId))
    ensures socket.Valid() && socket.betSlip == slip - SlipIds(inputs[..j + 1])
    ensures socket.Rooms() == Removals(rooms, socket.username, inputs[..j + 1])
    ensures socket.credits == old(socket.credits) && socket.currentRoom == old(socket.currentRoom)
    ensures socket.reg.activeRooms == old(socket.reg.activeRooms)
  {
    OddsProductStep(inputs, j, odds0);
    PlacementStep(details, entries, inputs, legIds, betId, j);
    RemovalsStep(rooms, socket.username, inputs, j);
    cumulativeOdds := odds0 * inputs[j].betOn.odds;
    var leg;
    saved, leg := SaveLeg(saved0, wq, socket, inputs[j], legIds[j], betId);
  }

  /** What one more pass of the saving loop adds to the saved legs, the waiting set and the removed slip ids. */
  lemma PlacementStep(details: map<string, BetDetail>, entries: map<Member, real>, inputs: seq<BetDetail>,
                      ids: seq<string>, betId: string, j: int)
    requires |ids| == |inputs| && 0 <= j < |inputs|
    ensures SaveAll(details, NewLegs(inputs[..j + 1], ids[..j + 1], betId)) ==
            SaveAll(details, NewLegs(inputs[..j], ids[..j], betId))[ids[j] := NewLeg(inputs[j], ids[j], betId)]
    ensures ScheduleAll(entries, NewLegs(inputs[..j + 1], ids[..j + 1], betId)) ==
            ScheduleAll(entries, NewLegs(inputs[..j], ids[..j], betId))[Member(ids[j], inputs[j].commenceTime) := SecondsScore(inputs[j].commenceTime)]
    ensures SlipIds(inputs[..j + 1]) == SlipIds(inputs[..j]) + {inputs[j].id}
  {
    var legs := NewLegs(inputs[..j], ids[..j], betId);
    var leg := NewLeg(inputs[j], ids[j], betId);
    NewLegsStep(inputs, ids, betId, j);
    SaveAllSnoc(details, legs, leg);
    ScheduleAllSnoc(entries, legs, leg);
    SlipIdsStep(inputs, j);
  }

  /**
   * `placeBet`.  `socket` is the player's entry in the online-users map (`null` when the
   * player is not connected).  An acceptance removes each placed entry from the slip
   * and the rooms as `removeBetFromSlip` does; a rejection leaves the session, its rooms
   * and the waiting set as they were.  The session's cached balance and current room
   * are never written.
   */
  method PlaceBet(db: Db, wq: SortedSet, socket: Player?, userId: string, inputs: seq<BetDetail>, amount: real,
                  betType: BetKind, betId: string, legIds: seq<string>) returns (r: Result<Db, PlaceError>)
    requires |legIds| == |inputs|
    requires socket != null ==> socket.Valid()
    modifies wq, socket, if socket == null then {} else {socket.reg}
    ensures r == PlaceBetSpec(db, socket != null, userId, inputs, amount, betType, betId, legIds)
    ensures r.Ok? ==> wq.entries == ScheduleAll(old(wq.entries), NewLegs(inputs, legIds, betId))
    ensures r.Err? ==> wq.entries == old(wq.entries)
    ensures socket != null ==> socket.Valid()
    ensures r.Ok? ==> socket != null && socket.betSlip == old(socket.betSlip) - SlipIds(inputs)
    ensures r.Err? && socket != null ==> socket.betSlip == old(socket.betSlip)
    ensures r.Ok? && socket != null ==> socket.Rooms() == Removals(old(socket.Rooms()), socket.username, inputs)
    ensures r.Err? && socket != null ==> socket.Rooms() == old(socket.Rooms())
    ensures socket != null ==>
      socket.credits == old(socket.credits) && socket.currentRoom == old(socket.currentRoom) &&
      socket.reg.activeRooms == old(socket.reg.activeRooms)
  {
    if socket == null {
      return Err(NotConnected);
    }
    if userId !in db.players {
      return Err(PlayerNotFound);
    }
    var player := db.players[userId];
    if player.credits < amount {
      return Err(InsufficientCredits);
    }
    if amount == 0.0 {
      return Err(ZeroStake);
    }
    var orphaned := FindOrphanedRival(db, inputs);
    if orphaned {
      return Err(ParentMissing);
    }
    if inputs == [] {
      return Err(EmptySlip);
    }
    assert !Orphaned(db, inputs);
    r := CommitPlacement(db, wq, socket, userId, inputs, amount, betType, betId, legIds);
  }

  /** The accepting path of `placeBet` once every check has passed: debit, the saving loop, and the parent bet. */
  method CommitPlacement(db: Db, wq: SortedSet, socket: Player, userId: string, inputs: seq<BetDetail>, amount: real,
                         betType: BetKind, betId: string, legIds: seq<string>) returns (r: Result<Db, PlaceError>)
    requires |legIds| == |inputs|
    requires socket.Valid()
    requires userId in db.players && amount <= db.players[userId].credits && amount != 0.0
    requires !Orphaned(db, inputs) && inputs != []
    modifies wq, socket, socket.reg
    ensures r == PlaceBetSpec(db, true, userId, inputs, amount, betType, betId, legIds)
    ensures wq.entries == ScheduleAll(old(wq.entries), NewLegs(inputs, legIds, betId))
    ensures socket.Valid() && socket.betSlip == old(socket.betSlip) - SlipIds(inputs)
    ensures socket.Rooms() == Removals(old(socket.Rooms()), socket.username, inputs)
    ensures socket.credits == old(socket.credits) && socket.currentRoom == old(socket.currentRoom)
    ensures socket.reg.activeRooms == old(socket.reg.activeRooms)
  {
    var player := db.players[userId];
    var players := db.players[userId := player.(credits := player.credits - amount)];
    assert players == AddCredits(db.players, userId, -amount);
    var details, cumulativeOdds := SaveLegs(db.details, wq, socket, inputs, betId, legIds);
    var bet := Bet(betId, userId, legIds, amount, cumulativeOdds * amount, Pending, 0, betType, false);
    r := Ok(db.(players := players, details := details, bets := db.bets[betId := bet]));
    assert details == SaveAll(db.details, NewLegs(inputs, legIds, betId));
    assert bet == Bet(betId, userId, legIds, amount, OddsProduct(inputs) * amount, Pending, 0, betType, false);
    assert r == PlaceBetSpec(db, true, userId, inputs, amount, betType, betId, legIds);
  }

  /** The checks are the only rejections: in particular a pending rival leg on the same market rejects only when its parent is gone. */
  lemma PlaceBetAccepts(db: Db, connected: bool, userId: string, inputs: seq<BetDetail>, amount: real,
                        betType: BetKind, betId: string, legIds: seq<string>)
    requires |legIds| == |inputs|
    ensures PlaceBetSpec(db, connected, userId, inputs, amount, betType, betId, legIds).Ok? <==>
      connected && userId in db.players && amount <= db.players[userId].credits && amount != 0.0 &&
      !Orphaned(db, inputs) && inputs != []
  {
  }

  /** A placed bet costs its player exactly the stake; no other balance and no other collection changes. */
  lemma PlaceBetDebitsStake(db: Db, connected: bool, userId: string, inputs: seq<BetDetail>, amount: real,
                            betType: BetKind, betId: string, legIds: seq<string>)
    requires |legIds| == |inputs|
    requires PlaceBetSpec(db, connected, userId, inputs, amount, betType, betId, legIds).Ok?
    ensures var after := PlaceBetSpec(db, connected, userId, inputs, amount, betType, betId, legIds).value;
      after.players.Keys == db.players.Keys &&
      after.players[userId].credits == db.players[userId].credits - amount &&
      (forall p :: p in db.players && p != userId ==> after.players[p] == db.players[p]) &&
      after.users == db.users && after.scores == db.scores && after.transfers == db.transfers
  {
  }

  /** A negative stake passes every check, and placing it raises the player's balance. */
  lemma NegativeStakeIsAccepted(db: Db, userId: string, inputs: seq<BetDetail>, amount: real,
                                betType: BetKind, betId: string, legIds: seq<string>)
    requires |legIds| == |inputs|
    requires amount < 0.0 && userId in db.players && db.players[userId].credits >= 0.0 && !Orphaned(db, inputs)
    requires inputs != []
    ensures var r := PlaceBetSpec(db, true, userId, inputs, amount, betType, betId, legIds);
      r.Ok? && r.value.players[userId].credits > db.players[userId].credits
  {
  }

  /** The saved leg for entry `i` carries the entry's selection and market, with the new id, the parent's id as key, and status pending. */
  lemma {:induction false} NewLegsAt(inputs: seq<BetDetail>, ids: seq<string>, betId: string, i: int)
    requires |ids| == |inputs| && 0 <= i < |inputs|
    ensures NewLegs(inputs, ids, betId)[i] == NewLeg(inputs[i], ids[i], betId)
  {
    var n := |inputs| - 1;
    if i < n {
      NewLegsAt(inputs[..n], ids[..n], betId, i);
    }
  }

  /** After saving the legs, a leg whose id no later leg reuses is stored as saved. */
  lemma {:induction false} SaveAllStores(details: map<string, BetDetail>, legs: seq<BetDetail>, i: int)
    requires 0 <= i < |legs| && forall k :: i < k < |legs| ==> legs[k].id != legs[i].id
    ensures legs[i].id in SaveAll(details, legs) && SaveAll(details, legs)[legs[i].id] == legs[i]
  {
    var n := |legs| - 1;
    if i < n {
      assert legs[..n][i] == legs[i];
      assert forall k :: i < k < n ==> legs[..n][k] == legs[k];
      SaveAllStores(details, legs[..n], i);
    }
  }

  /** Saving legs leaves every document whose id none of them carries untouched. */
  lemma {:induction false} SaveAllKeeps(details: map<string, BetDetail>, legs: seq<BetDetail>, id: string)
    requires id in details && forall k :: 0 <= k < |legs| ==> legs[k].id != id
    ensures id in SaveAll(details, legs) && SaveAll(details, legs)[id] == details[id]
  {
    if legs != [] {
      var n := |legs| - 1;
      assert forall k :: 0 <= k < n ==> legs[..n][k] == legs[k];
      SaveAllKeeps(details, legs[..n], id);
    }
  }

  /** The parent of a placed bet is pending with retry count 0, lists the new leg ids in order, and pays the stake times the product of the odds. */
  lemma PlaceBetParent(db: Db, connected: bool, userId: string, inputs: seq<BetDetail>, amount: real,
                       betType: BetKind, betId: string, legIds: seq<string>)
    requires |legIds| == |inputs|
    requires PlaceBetSpec(db, connected, userId, inputs, amount, betType, betId, legIds).Ok?
    ensures var after := PlaceBetSpec(db, connected, userId, inputs, amount, betType, betId, legIds).value;
      betId in after.bets &&
      after.bets[betId].status == Pending && after.bets[betId].retryCount == 0 &&
      after.bets[betId].data == legIds && after.bets[betId].player == userId && after.bets[betId].amount == amount
  {
  }

  /** The possible win of a placed bet is the stake times the product of its legs' odds. */
  lemma PlaceBetPayout(db: Db, connected: bool, userId: string, inputs: seq<BetDetail>, amount: real,
                       betType: BetKind, betId: string, legIds: seq<string>)
    requires |legIds| == |inputs|
    requires PlaceBetSpec(db, connected, userId, inputs, amount, betType, betId, legIds).Ok?
    ensures PlaceBetSpec(db, connected, userId, inputs, amount, betType, betId, legIds).value.bets[betId].possibleWinningAmount
      == OddsProduct(inputs) * amount
  {
    PlaceBetWin(db, connected, userId, inputs, amount, betType, betId, legIds);
    PossibleWinIs(inputs, amount);
  }

  /** The possible win is the stake times the product of the odds, stated apart so that the multiplication stays out of larger proofs. */
  lemma PossibleWinIs(inputs: seq<BetDetail>, amount: real)
    ensures PossibleWin(inputs, amount) == OddsProduct(inputs) * amount
  {
  }

  /** The placed parent records `PossibleWin` as its possible win. */
  lemma PlaceBetWin(db: Db, connected: bool, userId: string, inputs: seq<BetDetail>, amount: real,
                    betType: BetKind, betId: string, legIds: seq<string>)
    requires |legIds| == |inputs|
    requires PlaceBetSpec(db, connected, userId, inputs, amount, betType, betId, legIds).Ok?
    ensures PlaceBetSpec(db, connected, userId, inputs, amount, betType, betId, legIds).value.bets[betId].possibleWinningAmount
      == PossibleWin(inputs, amount)
  {
  }

  /** Each leg of a placed bet is saved pending under the parent, with its entry's selection, event and start; older legs are untouched. */
  lemma PlaceBetLegs(db: Db, connected: bool, userId: string, inputs: seq<BetDetail>, amount: real,
                     betType: BetKind, betId: string, legIds: seq<string>)
    requires |legIds| == |inputs|
    requires forall i, k :: 0 <= i < k < |legIds| ==> legIds[i] != legIds[k]
    requires PlaceBetSpec(db, connected, userId, inputs, amount, betType, betId, legIds).Ok?
    ensures var after := PlaceBetSpec(db, connected, userId, inputs, amount, betType, betId, legIds).value;
      (forall i :: 0 <= i < |inputs| ==>
        legIds[i] in after.details && after.details[legIds[i]].status == Pending && after.details[legIds[i]].key == betId &&
        after.details[legIds[i]].betOn == inputs[i].betOn && after.details[legIds[i]].eventId == inputs[i].eventId &&
        after.details[legIds[i]].commenceTime == inputs[i].commenceTime) &&
      (forall id :: id in db.details && id !in legIds ==> id in after.details && after.details[id] == db.details[id])
  {
    var after := PlaceBetSpec(db, connected, userId, inputs, amount, betType, betId, legIds).value;
    var legs := NewLegs(inputs, legIds, betId);
    assert after.details == SaveAll(db.details, legs);
    forall i | 0 <= i < |legs|
      ensures legs[i] == NewLeg(inputs[i], legIds[i], betId)
      ensures legIds[i] in after.details && after.details[legIds[i]] == legs[i]
    {
      NewLegsAt(inputs, legIds, betId, i);
      forall k | i < k < |legs| ensures legs[k].id != legs[i].id {
        NewLegsAt(inputs, legIds, betId, k);
      }
      SaveAllStores(db.details, legs, i);
    }
    forall id | id in db.details && id !in legIds
      ensures id in after.details && after.details[id] == db.details[id]
    {
      forall k | 0 <= k < |legs| ensures legs[k].id != id {
        NewLegsAt(inputs, legIds, betId, k);
      }
      SaveAllKeeps(db.details, legs, id);
    }
  }

  /** With decimal odds and a stake that is not negative, the possible win is at least the stake. */
  lemma PayoutCoversStake(inputs: seq<BetDetail>, amount: real)
    requires amount >= 0.0
    requires forall i :: 0 <= i < |inputs| ==> inputs[i].betOn.odds >= 1.0
    ensures OddsProduct(inputs) * amount >= amount
  {
    OddsProductAtLeastOne(inputs);
    var p := OddsProduct(inputs);
    assert (p - 1.0) * amount >= 0.0;
  }

  /** The saved legs carry the entries' odds, so they multiply to the same product. */
  lemma {:induction false} NewLegsKeepOdds(inputs: seq<BetDetail>, ids: seq<string>, betId: string)
    requires |ids| == |inputs|
    ensures OddsProduct(NewLegs(inputs, ids, betId)) == OddsProduct(inputs)
  {
    if inputs != [] {
      var n := |inputs| - 1;
      NewLegsKeepOdds(inputs[..n], ids[..n], betId);
      var legs := NewLegs(inputs, ids, betId);
      assert legs[..n] == NewLegs(inputs[..n], ids[..n], betId);
    }
  }

  /** Every scheduled leg is in the waiting set under its member, scored with its commence time in seconds. */
  lemma {:induction false} ScheduleAllAt(entries: map<Member, real>, legs: seq<BetDetail>, l: BetDetail)
    requires l in legs
    ensures Member(l.id, l.commenceTime) in ScheduleAll(entries, legs)
    ensures ScheduleAll(entries, legs)[Member(l.id, l.commenceTime)] == SecondsScore(l.commenceTime)
  {
    var n := |legs| - 1;
    if l != legs[n] {
      assert legs == legs[..n] + [legs[n]];
      ScheduleAllAt(entries, legs[..n], l);
    }
  }

  /** Placing a bet under a fresh id keeps the payout of every existing bet. */
  lemma PlaceBetKeepsPayouts(db: Db, connected: bool, userId: string, inputs: seq<BetDetail>, amount: real,
                             betType: BetKind, betId: string, legIds: seq<string>)
    requires |legIds| == |inputs| && betId !in db.bets
    requires PlaceBetSpec(db, connected, userId, inputs, amount, betType, betId, legIds).Ok?
    ensures PayoutsKept(db, PlaceBetSpec(db, connected, userId, inputs, amount, betType, betId, legIds).value)
  {
  }
}
