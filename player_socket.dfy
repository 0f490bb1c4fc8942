/**
 * The connected player's session object: its bet slip (a `Map` keyed by the slip
 * entry's id, iterated in insertion order), its cached balance, and the bookkeeping it
 * does in the shared socket state when slip entries come and go.
 */
module PlayerSocket {
  import opened Wrappers
  import opened Records
  import opened SocketState

  /** A bet-slip entry (`IBetSlip`). */
  datatype SlipEntry = SlipEntry(
    id: string,
    betOn: BetOn,
    eventId: string,
    sportKey: string,
    commenceTime: int,
    category: string,
    bookmaker: string,
    oddsFormat: string,
    amount: real)

  datatype BalanceChange = Credit | Debit

  /** The key `updateBetAmount` looks entries up by: `${event_id}_${bet_on.name}_${category}_${bet_on.odds}`, with `show` rendering the odds as JavaScript prints a number. */
  function GenerateBetId(bet: SlipEntry, show: real -> string): (r: string)
    ensures r == bet.eventId + "_" + bet.betOn.name + "_" + bet.category + "_" + show(bet.betOn.odds)
    ensures |r| == |bet.eventId| + |bet.betOn.name| + |bet.category| + |show(bet.betOn.odds)| + 3
  {
    bet.eventId + "_" + bet.betOn.name + "_" + bet.category + "_" + show(bet.betOn.odds)
  }

  /** The generated key begins with the event id, so entries on different events never share a key when their ids have the same length. */
  lemma GenerateBetIdSeparatesEvents(a: SlipEntry, b: SlipEntry, show: real -> string)
    requires |a.eventId| == |b.eventId| && a.eventId != b.eventId
    ensures GenerateBetId(a, show) != GenerateBetId(b, show)
  {
    var ka := GenerateBetId(a, show);
    var kb := GenerateBetId(b, show);
    assert ka[..|a.eventId|] == a.eventId;
    assert kb[..|b.eventId|] == b.eventId;
  }

  /** The balance after `updateBalance`: a credit adds, a debit subtracts and clamps at zero. */
  function NewBalance(credits: real, kind: BalanceChange, amount: real): (r: real)
    ensures kind == Credit ==> r == credits + amount
    ensures kind == Debit ==> r >= 0.0
    ensures kind == Debit ==> r == (if credits - amount < 0.0 then 0.0 else credits - amount)
  {
    match kind
    case Credit => credits + amount
    case Debit => if credits - amount < 0.0 then 0.0 else credits - amount
  }

  /** A debit larger than the balance empties it rather than overdrawing, and a credit of the same amount does not restore what was lost to the clamp. */
  lemma DebitClampLosesTheExcess(credits: real, amount: real)
    requires 0.0 <= credits < amount
    ensures NewBalance(credits, Debit, amount) == 0.0
    ensures NewBalance(NewBalance(credits, Debit, amount), Credit, amount) == amount
    ensures NewBalance(NewBalance(credits, Debit, amount), Credit, amount) != credits
  {
  }

  predicate Distinct(s: seq<string>)
  {
    forall i, j :: 0 <= i < j < |s| ==> s[i] != s[j]
  }

  /** Removes one key from the insertion order. */
  function Unlist(order: seq<string>, id: string): (r: seq<string>)
    ensures forall k :: k in r <==> k in order && k != id
  {
    if order == [] then []
    else (if order[0] == id then [] else [order[0]]) + Unlist(order[1..], id)
  }

  lemma {:induction false} UnlistDistinct(order: seq<string>, id: string)
    requires Distinct(order)
    ensures Distinct(Unlist(order, id))
  {
    if order != [] {
      assert Distinct(order[1..]) by {
        forall i, j | 0 <= i < j < |order[1..]|
          ensures order[1..][i] != order[1..][j]
        {
          assert order[1..][i] == order[i + 1] && order[1..][j] == order[j + 1];
        }
      }
      UnlistDistinct(order[1..], id);
      assert order[0] !in order[1..];
    }
  }

  /** Some slip entry other than a removed one is on the same sport and event. */
  predicate HasRemaining(slip: map<string, SlipEntry>, sportKey: string, eventId: string)
  {
    exists k :: k in slip && slip[k].sportKey == sportKey && slip[k].eventId == eventId
  }

  /** What removing a slip entry reads and writes: the slip, its insertion order, and the registry's three room maps. */
  datatype SlipRooms = SlipRooms(
    betSlip: map<string, SlipEntry>,
    slipOrder: seq<string>,
    eventRooms: map<string, set<string>>,
    playerBets: map<string, set<string>>,
    globalEventRooms: map<string, set<string>>)

  /**
   * `removeBetFromSlip(betId)` by the player `username`: an absent id changes nothing;
   * otherwise the entry leaves the slip and its order, its event leaves the player's
   * watched events, and it leaves the sport's rooms only when no other entry is on it.
   */
  function Removal(st: SlipRooms, username: string, betId: string): (r: SlipRooms)
    ensures r.betSlip == st.betSlip - {betId}
    ensures betId !in st.betSlip ==> r == st
    ensures betId in st.betSlip ==> forall k :: k in r.slipOrder <==> k in st.slipOrder && k != betId
  {
    if betId !in st.betSlip then st
    else
      var bet := st.betSlip[betId];
      var slip := st.betSlip - {betId};
      var kept := st.(betSlip := slip, slipOrder := Unlist(st.slipOrder, betId),
                      playerBets := DropMember(st.playerBets, username, bet.eventId));
      if HasRemaining(slip, bet.sportKey, bet.eventId) then kept
      else kept.(eventRooms := DropMember(st.eventRooms, bet.sportKey, bet.eventId),
                 globalEventRooms := DropMember(st.globalEventRooms, bet.sportKey, bet.eventId))
  }

  class Player {
    const userId: string
    const username: string
    var credits: real
    var currentRoom: string
    var betSlip: map<string, SlipEntry>
    var slipOrder: seq<string>     // the keys of betSlip in insertion order
    const reg: Registry

    /** The slip and the room maps a slip removal acts on. */
    ghost function Rooms(): SlipRooms
      reads this, reg
    {
      SlipRooms(betSlip, slipOrder, reg.eventRooms, reg.playerBets, reg.globalEventRooms)
    }

    /** The slip's insertion order lists each of its keys once. */
    ghost predicate Valid()
      reads this
    {
      (forall k :: k in slipOrder <==> k in betSlip) &&
      Distinct(slipOrder)
    }

    constructor(userId: string, username: string, credits: real, reg: Registry)
      ensures Valid()
      ensures this.userId == userId && this.username == username && this.credits == credits && this.reg == reg
      ensures betSlip == map[] && slipOrder == []
    {
      this.userId := userId;
      this.username := username;
      this.credits := credits;
      this.reg := reg;
      currentRoom := "";
      betSlip := map[];
      slipOrder := [];
    }

    /**
     * `addBetToSlip`, with the room join it starts run to completion: a new entry is
     * stored, the sport's event set is reset to this one event, the shared Redis map
     * gains the event, and the player's watched events gain it too.
     */
    method AddBetToSlip(bet: SlipEntry)
      requires Valid()
      modifies this, reg
      ensures Valid()
      ensures bet.id in old(betSlip) ==>
        betSlip == old(betSlip) && slipOrder == old(slipOrder) && currentRoom == old(currentRoom) &&
        reg.eventRooms == old(reg.eventRooms) && reg.playerBets == old(reg.playerBets) &&
        reg.globalEventRooms == old(reg.globalEventRooms)
      ensures bet.id !in old(betSlip) ==>
        betSlip == old(betSlip)[bet.id := bet] && slipOrder == old(slipOrder) + [bet.id] &&
        reg.eventRooms == old(reg.eventRooms)[bet.sportKey := {bet.eventId}] &&
        reg.globalEventRooms == AddMember(old(reg.globalEventRooms), bet.sportKey, bet.eventId) &&
        reg.playerBets == AddMember(old(reg.playerBets), username, bet.eventId) &&
        currentRoom == bet.sportKey + ":" + bet.eventId
      ensures reg.activeRooms == old(reg.activeRooms) && credits == old(credits)
    {
      if bet.id in betSlip {
        return;
      }
      betSlip := betSlip[bet.id := bet];
      slipOrder := slipOrder + [bet.id];
      reg.eventRooms := reg.eventRooms[bet.sportKey := {}];
      ghost var reset := reg.eventRooms;
      assert {} + {bet.eventId} == {bet.eventId};
      assert AddMember(reset, bet.sportKey, bet.eventId) == old(reg.eventRooms)[bet.sportKey := {bet.eventId}];
      JoinEventRoom(bet.sportKey, bet.eventId);
      reg.playerBets := AddMember(reg.playerBets, username, bet.eventId);
    }

    /** `joinEventRoom`: adds the event to the Redis map and to the in-memory rooms of its sport, and makes it the current room. */
    method JoinEventRoom(sportKey: string, eventId: string)
      modifies this, reg
      ensures reg.globalEventRooms == AddMember(old(reg.globalEventRooms), sportKey, eventId)
      ensures reg.eventRooms == AddMember(old(reg.eventRooms), sportKey, eventId)
      ensures currentRoom == sportKey + ":" + eventId
      ensures betSlip == old(betSlip) && slipOrder == old(slipOrder) && credits == old(credits)
      ensures reg.playerBets == old(reg.playerBets) && reg.activeRooms == old(reg.activeRooms)
    {
      reg.globalEventRooms := AddMember(reg.globalEventRooms, sportKey, eventId);
      reg.eventRooms := AddMember(reg.eventRooms, sportKey, eventId);
      currentRoom := sportKey + ":" + eventId;
    }

    /** `updateBetAmount`: sets only the amount of the entry stored under the generated key, if there is one. */
    method UpdateBetAmount(bet: SlipEntry, amount: real, show: real -> string)
      requires Valid()
      modifies this
      ensures Valid()
      ensures var key := GenerateBetId(bet, show);
        if key in old(betSlip) then betSlip == old(betSlip)[key := old(betSlip)[key].(amount := amount)]
        else betSlip == old(betSlip)
      ensures slipOrder == old(slipOrder) && credits == old(credits) && currentRoom == old(currentRoom)
    {
      var key := GenerateBetId(bet, show);
      if key !in betSlip {
        return;
      }
      betSlip := betSlip[key := betSlip[key].(amount := amount)];
    }

    /**
     * `removeBetFromSlip`: deletes the entry, drops its event from the player's watched
     * events, and, when no other entry is on the same sport and event, from the
     * sport's rooms too; an absent id only reports an error (`sentError`).
     */
    method RemoveBetFromSlip(betId: string) returns (sentError: bool)
      requires Valid()
      modifies this, reg
      ensures Valid()
      ensures sentError <==> betId !in old(betSlip)
      ensures sentError ==>
        betSlip == old(betSlip) && slipOrder == old(slipOrder) &&
        reg.eventRooms == old(reg.eventRooms) && reg.playerBets == old(reg.playerBets) &&
        reg.globalEventRooms == old(reg.globalEventRooms)
      ensures !sentError ==>
        var bet := old(betSlip)[betId];
        betSlip == old(betSlip) - {betId} && slipOrder == Unlist(old(slipOrder), betId) &&
        reg.playerBets == DropMember(old(reg.playerBets), username, bet.eventId) &&
        if HasRemaining(betSlip, bet.sportKey, bet.eventId) then
          reg.eventRooms == old(reg.eventRooms) && reg.globalEventRooms == old(reg.globalEventRooms)
        else
          reg.eventRooms == DropMember(old(reg.eventRooms), bet.sportKey, bet.eventId) &&
          reg.globalEventRooms == DropMember(old(reg.globalEventRooms), bet.sportKey, bet.eventId)
      ensures Rooms() == Removal(old(Rooms()), username, betId)
      ensures reg.activeRooms == old(reg.activeRooms) && credits == old(credits) && currentRoom == old(currentRoom)
    {
      if betId !in betSlip {
        return true;
      }
      var bet := betSlip[betId];
      betSlip := betSlip - {betId};
      UnlistDistinct(slipOrder, betId);
      slipOrder := Unlist(slipOrder, betId);
      reg.playerBets := DropMember(reg.playerBets, username, bet.eventId);
      var remaining := HasRemaining(betSlip, bet.sportKey, bet.eventId);
      if !remaining {
        reg.globalEventRooms := DropMember(reg.globalEventRooms, bet.sportKey, bet.eventId);
        reg.eventRooms := DropMember(reg.eventRooms, bet.sportKey, bet.eventId);
      }
      return false;
    }

    /**
     * `removeAllBetsFromSlip`.  The loop body clears the slip, which ends the iteration
     * after the first entry; that entry's event is dropped from the watched events kept
     * under the player's id, and since the entry is still in the slip when the
     * remaining-bets test runs, the sport's rooms are never touched.
     */
    method RemoveAllBetsFromSlip()
      requires Valid()
      modifies this, reg
      ensures Valid()
      ensures betSlip == map[] && slipOrder == []
      ensures old(slipOrder) == [] ==> reg.playerBets == old(reg.playerBets)
      ensures old(slipOrder) != [] ==>
        reg.playerBets == DropMember(old(reg.playerBets), userId, old(betSlip)[old(slipOrder)[0]].eventId)
      ensures reg.eventRooms == old(reg.eventRooms) && reg.globalEventRooms == old(reg.globalEventRooms)
      ensures reg.activeRooms == old(reg.activeRooms) && credits == old(credits) && currentRoom == old(currentRoom)
    {
      if slipOrder != [] {
        var bet := betSlip[slipOrder[0]];
        reg.playerBets := DropMember(reg.playerBets, userId, bet.eventId);
        var remaining := HasRemaining(betSlip, bet.sportKey, bet.eventId);
        assert remaining by {
          assert slipOrder[0] in betSlip;
        }
        betSlip := map[];
        slipOrder := [];
      }
    }

    /** `updateBalance` against the stored player record: a missing player changes nothing, otherwise the record and the cached balance both take the new balance. */
    method UpdateBalance(players: map<string, Account>, kind: BalanceChange, amount: real) returns (r: map<string, Account>)
      modifies this
      ensures userId !in players ==> r == players && credits == old(credits)
      ensures userId in players ==>
        r == players[userId := players[userId].(credits := NewBalance(players[userId].credits, kind, amount))] &&
        credits == r[userId].credits
      ensures betSlip == old(betSlip) && slipOrder == old(slipOrder) && currentRoom == old(currentRoom)
    {
      if userId !in players {
        return players;
      }
      var player := players[userId];
      var balance := player.credits;
      match kind {
        case Credit => balance := balance + amount;
        case Debit =>
          balance := balance - amount;
          if balance < 0.0 {
            balance := 0.0;
          }
      }
      r := players[userId := player.(credits := balance)];
      credits := balance;
    }
  }
}
