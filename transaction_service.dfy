/**
 * Credit transfers between an agent and a subordinate account (`performTransaction`):
 * a recharge moves credits from the requesting account to the other one, a redeem
 * moves them back.  The whole transfer runs in one session, so a rejected transfer
 * leaves the store exactly as it was.
 */
module TransactionService {
  import opened Wrappers
  import opened Records

  /** The arguments of `performTransaction` that decide what it writes (`role` is unused). */
  datatype Request = Request(
    senderId: string,
    receiverId: string,
    senderModel: Collection,
    receiverModel: Collection,
    kind: TransferKind,
    amount: real)

  /** The account counters an `$inc` can touch. */
  datatype Counter = Credits | TotalRecharge | TotalRedeem

  /** The accounts of one collection. */
  function AccountsOf(db: Db, c: Collection): map<string, Account>
  {
    match c
    case UserDocs => db.users
    case PlayerDocs => db.players
  }

  function Bump(a: Account, f: Counter, delta: real): Account
  {
    match f
    case Credits => a.(credits := a.credits + delta)
    case TotalRecharge => a.(totalRecharge := a.totalRecharge + delta)
    case TotalRedeem => a.(totalRedeem := a.totalRedeem + delta)
  }

  /** `model.updateOne({ _id: id }, { $inc: { f: delta } })`: an id that matches nothing changes nothing. */
  function Inc(db: Db, c: Collection, id: string, f: Counter, delta: real): Db
  {
    var accounts := AccountsOf(db, c);
    if id !in accounts then db
    else
      match c
      case UserDocs => db.(users := accounts[id := Bump(accounts[id], f, delta)])
      case PlayerDocs => db.(players := accounts[id := Bump(accounts[id], f, delta)])
  }

  predicate IsSender(req: Request, c: Collection, id: string)
  {
    c == req.senderModel && id == req.senderId
  }

  predicate IsReceiver(req: Request, c: Collection, id: string)
  {
    c == req.receiverModel && id == req.receiverId
  }

  /** What `updateCredits` adds to an account's credits; an account that is both parties gets both updates. */
  function CreditsDelta(req: Request, c: Collection, id: string): real
  {
    (if IsSender(req, c, id) then (if req.kind == RechargeTx then -req.amount else req.amount) else 0.0) +
    (if IsReceiver(req, c, id) then (if req.kind == RechargeTx then req.amount else -req.amount) else 0.0)
  }

  /** What it adds to `totalRecharge`: the receiver's on a recharge, the sender's on a redeem. */
  function RechargeDelta(req: Request, c: Collection, id: string): real
  {
    if (req.kind == RechargeTx && IsReceiver(req, c, id)) || (req.kind == RedeemTx && IsSender(req, c, id))
    then req.amount else 0.0
  }

  /** What it adds to `totalRedeem`: the sender's on a recharge, the receiver's on a redeem. */
  function RedeemDelta(req: Request, c: Collection, id: string): real
  {
    if (req.kind == RechargeTx && IsSender(req, c, id)) || (req.kind == RedeemTx && IsReceiver(req, c, id))
    then req.amount else 0.0
  }

  /** The accounts of collection `c` once every update of the transfer has been applied, each account at once. */
  function Settled(accounts: map<string, Account>, req: Request, c: Collection): map<string, Account>
  {
    map id | id in accounts ::
      accounts[id].(credits := accounts[id].credits + CreditsDelta(req, c, id),
                    totalRecharge := accounts[id].totalRecharge + RechargeDelta(req, c, id),
                    totalRedeem := accounts[id].totalRedeem + RedeemDelta(req, c, id))
  }

  /** The store after the transfer's updates: only the two account collections change. */
  function Transferred(db: Db, req: Request): Db
  {
    db.(users := Settled(db.users, req, UserDocs), players := Settled(db.players, req, PlayerDocs))
  }

  /** One `$inc` of `updateCredits`: which account, which counter, by how much. */
  datatype Increment = Increment(model: Collection, id: string, field: Counter, delta: real)

  /** The four `$inc` updates of `updateCredits`, in its order. */
  function Plan(req: Request): (r: seq<Increment>)
    ensures |r| == 4 && r[0].field == Credits && r[1].field == Credits
    ensures r[0].id == req.senderId && r[1].id == req.receiverId && r[0].delta + r[1].delta == 0.0
    ensures r[2].field != Credits && r[3].field != Credits && r[2].delta == req.amount && r[3].delta == req.amount
  {
    var senderUpdate := if req.kind == RechargeTx then -req.amount else req.amount;
    var receiverUpdate := if req.kind == RechargeTx then req.amount else -req.amount;
    [Increment(req.senderModel, req.senderId, Credits, senderUpdate),
     Increment(req.receiverModel, req.receiverId, Credits, receiverUpdate)] +
    if req.kind == RechargeTx
    then [Increment(req.receiverModel, req.receiverId, TotalRecharge, req.amount),
          Increment(req.senderModel, req.senderId, TotalRedeem, req.amount)]
    else [Increment(req.senderModel, req.senderId, TotalRecharge, req.amount),
          Increment(req.receiverModel, req.receiverId, TotalRedeem, req.amount)]
  }

  /** Account `id` of collection `c`, starting as `a`, once the updates `done` have run in order. */
  function Replayed(a: Account, c: Collection, id: string, done: seq<Increment>): Account
    decreases |done|
  {
    if done == [] then a
    else
      Applied(Replayed(a, c, id, done[..|done| - 1]), c, id, done[|done| - 1])
  }

  /** Account `id` of collection `c` after one update: bumped when the update names it. */
  function Applied(a: Account, c: Collection, id: string, u: Increment): Account
  {
    if u.model == c && u.id == id then Bump(a, u.field, u.delta) else a
  }

  /** `st` is `db` after the updates `done`: the same accounts, each replayed, and nothing else changed. */
  ghost predicate Partial(db: Db, st: Db, done: seq<Increment>)
  {
    st.bets == db.bets && st.details == db.details && st.scores == db.scores && st.transfers == db.transfers &&
    (forall c: Collection, id :: id in AccountsOf(st, c) <==> id in AccountsOf(db, c)) &&
    forall c: Collection, id :: id in AccountsOf(db, c) ==> AccountsOf(st, c)[id] == Replayed(AccountsOf(db, c)[id], c, id, done)
  }

  /**
   * `updateCredits`: the credits of both parties, then the recharge and redeem
   * counters, each one `$inc`.  Stated per account, so it also covers a transfer
   * whose two parties are the same account.
   */
  method UpdateCredits(db: Db, req: Request) returns (after: Db)
    ensures after == Transferred(db, req)
  {
    var senderUpdate := if req.kind == RechargeTx then -req.amount else req.amount;
    var receiverUpdate := if req.kind == RechargeTx then req.amount else -req.amount;
    ghost var done: seq<Increment> := [];
    after := db;
    PartialStart(db);
    IncStep(db, after, done, Increment(req.senderModel, req.senderId, Credits, senderUpdate));
    after := Inc(after, req.senderModel, req.senderId, Credits, senderUpdate);
    done := done + [Increment(req.senderModel, req.senderId, Credits, senderUpdate)];
    IncStep(db, after, done, Increment(req.receiverModel, req.receiverId, Credits, receiverUpdate));
    after := Inc(after, req.receiverModel, req.receiverId, Credits, receiverUpdate);
    done := done + [Increment(req.receiverModel, req.receiverId, Credits, receiverUpdate)];
    if req.kind == RechargeTx {
      IncStep(db, after, done, Increment(req.receiverModel, req.receiverId, TotalRecharge, req.amount));
      after := Inc(after, req.receiverModel, req.receiverId, TotalRecharge, req.amount);
      done := done + [Increment(req.receiverModel, req.receiverId, TotalRecharge, req.amount)];
      IncStep(db, after, done, Increment(req.senderModel, req.senderId, TotalRedeem, req.amount));
      after := Inc(after, req.senderModel, req.senderId, TotalRedeem, req.amount);
      done := done + [Increment(req.senderModel, req.senderId, TotalRedeem, req.amount)];
    } else {
      IncStep(db, after, done, Increment(req.senderModel, req.senderId, TotalRecharge, req.amount));
      after := Inc(after, req.senderModel, req.senderId, TotalRecharge, req.amount);
      done := done + [Increment(req.senderModel, req.senderId, TotalRecharge, req.amount)];
      IncStep(db, after, done, Increment(req.receiverModel, req.receiverId, TotalRedeem, req.amount));
      after := Inc(after, req.receiverModel, req.receiverId, TotalRedeem, req.amount);
      done := done + [Increment(req.receiverModel, req.receiverId, TotalRedeem, req.amount)];
    }
    assert done == Plan(req);
    PlanSettles(db, after, req);
  }

  /** One `$inc` seen from one account `key` of collection `k`. */
  lemma IncValue(db: Db, c: Collection, id: string, f: Counter, delta: real, k: Collection, key: string)
    ensures key in AccountsOf(Inc(db, c, id, f, delta), k) <==> key in AccountsOf(db, k)
    ensures key in AccountsOf(db, k) ==>
              AccountsOf(Inc(db, c, id, f, delta), k)[key] ==
                if k == c && key == id then Bump(AccountsOf(db, k)[key], f, delta) else AccountsOf(db, k)[key]
  {
  }

  /** Before any update the store is its own replay. */
  lemma PartialStart(db: Db)
    ensures Partial(db, db, [])
  {
  }

  /** One more `$inc` extends the replay by that update. */
  lemma IncStep(db: Db, st: Db, done: seq<Increment>, u: Increment)
    requires Partial(db, st, done)
    ensures Partial(db, Inc(st, u.model, u.id, u.field, u.delta), done + [u])
  {
    var next := Inc(st, u.model, u.id, u.field, u.delta);
    assert (done + [u])[..|done|] == done;
    forall c: Collection, id
      ensures id in AccountsOf(next, c) <==> id in AccountsOf(db, c)
      ensures id in AccountsOf(db, c) ==> AccountsOf(next, c)[id] == Replayed(AccountsOf(db, c)[id], c, id, done + [u])
    {
      IncValue(st, u.model, u.id, u.field, u.delta, c, id);
    }
    assert next.bets == st.bets && next.details == st.details && next.scores == st.scores && next.transfers == st.transfers;
  }

  /** Replaying the four updates on one account gives the per-account deltas of the transfer. */
  lemma PlanAt(a: Account, req: Request, c: Collection, id: string)
    ensures Replayed(a, c, id, Plan(req)) ==
            a.(credits := a.credits + CreditsDelta(req, c, id),
               totalRecharge := a.totalRecharge + RechargeDelta(req, c, id),
               totalRedeem := a.totalRedeem + RedeemDelta(req, c, id))
  {
    var p := Plan(req);
    var a1 := Applied(a, c, id, p[0]);
    var a2 := Applied(a1, c, id, p[1]);
    var a3 := Applied(a2, c, id, p[2]);
    assert Replayed(a, c, id, p[..1]) == a1 by { assert p[..1][..0] == []; }
    assert Replayed(a, c, id, p[..2]) == a2 by { assert p[..2][..1] == p[..1]; }
    assert Replayed(a, c, id, p[..3]) == a3 by { assert p[..3][..2] == p[..2]; }
    assert Replayed(a, c, id, p) == Applied(a3, c, id, p[3]) by { assert p[..3] == p[..|p| - 1]; }
  }

  /** The four updates of `updateCredits` settle the transfer. */
  lemma PlanSettles(db: Db, st: Db, req: Request)
    requires Partial(db, st, Plan(req))
    ensures st == Transferred(db, req)
  {
    forall c: Collection
      ensures AccountsOf(st, c) == Settled(AccountsOf(db, c), req, c)
    {
      forall id | id in AccountsOf(db, c)
        ensures AccountsOf(st, c)[id] == Settled(AccountsOf(db, c), req, c)[id]
      {
        PlanAt(AccountsOf(db, c)[id], req, c, id);
      }
    }
    assert st.users == AccountsOf(st, UserDocs) && st.players == AccountsOf(st, PlayerDocs);
  }

  /** `validateCredits`, on the account documents the caller loaded: true when it does not throw. */
  predicate ValidateCredits(kind: TransferKind, sender: Account, receiver: Account, amount: real)
  {
    !(kind == RechargeTx && sender.credits < amount) && !(kind == RedeemTx && receiver.credits < amount)
  }

  /** The transaction record: on a redeem the two parties swap, so `sender` is always the account that pays. */
  function Recorded(req: Request): Transfer
  {
    if req.kind == RedeemTx then Transfer(req.receiverId, req.senderId, req.receiverModel, req.senderModel, req.kind, req.amount)
    else Transfer(req.senderId, req.receiverId, req.senderModel, req.receiverModel, req.kind, req.amount)
  }

  /** `performTransaction`: the new store, or the status of the error that aborted the session. */
  function TransactSpec(db: Db, req: Request, sender: Account, receiver: Account): Result<Db, int>
  {
    if req.amount <= 0.0 then Err(400)
    else if !ValidateCredits(req.kind, sender, receiver, req.amount) then Err(400)
    else
      var moved := Transferred(db, req);
      Ok(moved.(transfers := moved.transfers + [Recorded(req)]))
  }

  method PerformTransaction(db: Db, req: Request, sender: Account, receiver: Account) returns (r: Result<Db, int>)
    ensures r == TransactSpec(db, req, sender, receiver)
  {
    if req.amount <= 0.0 {
      return Err(400);
    }
    if !ValidateCredits(req.kind, sender, receiver, req.amount) {
      return Err(400);
    }
    var after := UpdateCredits(db, req);
    var senderUser := if req.kind == RedeemTx then req.receiverId else req.senderId;
    var receiverUser := if req.kind == RedeemTx then req.senderId else req.receiverId;
    var senderModelForDb := if req.kind == RedeemTx then req.receiverModel else req.senderModel;
    var receiverModelForDb := if req.kind == RedeemTx then req.senderModel else req.receiverModel;
    after := after.(transfers := after.transfers + [Transfer(senderUser, receiverUser, senderModelForDb,
                                                             receiverModelForDb, req.kind, req.amount)]);
    return Ok(after);
  }

  /** A transfer is rejected, with 400, exactly when its amount is not positive or the paying party cannot cover it. */
  lemma TransactRejects(db: Db, req: Request, sender: Account, receiver: Account)
    ensures TransactSpec(db, req, sender, receiver).Err? <==>
            req.amount <= 0.0 || (req.kind == RechargeTx && sender.credits < req.amount) ||
            (req.kind == RedeemTx && receiver.credits < req.amount)
    ensures TransactSpec(db, req, sender, receiver).Err? ==> TransactSpec(db, req, sender, receiver).error == 400
  {
  }

  /**
   * An accepted transfer between two different accounts moves `amount` from one to the
   * other and keeps their sum; a transfer of an account to itself leaves its credits
   * as they were.
   */
  lemma TransactConserves(db: Db, req: Request, sender: Account, receiver: Account)
    requires TransactSpec(db, req, sender, receiver).Ok?
    requires req.senderId in AccountsOf(db, req.senderModel) && req.receiverId in AccountsOf(db, req.receiverModel)
    ensures var after := TransactSpec(db, req, sender, receiver).value;
            var s := req.senderId;
            var v := req.receiverId;
            AccountsOf(after, req.senderModel)[s].credits + AccountsOf(after, req.receiverModel)[v].credits ==
              AccountsOf(db, req.senderModel)[s].credits + AccountsOf(db, req.receiverModel)[v].credits
    ensures var after := TransactSpec(db, req, sender, receiver).value;
            IsReceiver(req, req.senderModel, req.senderId) ==>
              AccountsOf(after, req.senderModel)[req.senderId].credits == AccountsOf(db, req.senderModel)[req.senderId].credits
  {
    var after := TransactSpec(db, req, sender, receiver).value;
    assert AccountsOf(after, UserDocs) == Settled(db.users, req, UserDocs);
    assert AccountsOf(after, PlayerDocs) == Settled(db.players, req, PlayerDocs);
  }

  /** An accepted transfer leaves every account other than its two parties as it was. */
  lemma TransactIsolates(db: Db, req: Request, sender: Account, receiver: Account, c: Collection, id: string)
    requires TransactSpec(db, req, sender, receiver).Ok?
    requires id in AccountsOf(db, c) && !IsSender(req, c, id) && !IsReceiver(req, c, id)
    ensures id in AccountsOf(TransactSpec(db, req, sender, receiver).value, c)
    ensures AccountsOf(TransactSpec(db, req, sender, receiver).value, c)[id] == AccountsOf(db, c)[id]
  {
    var after := TransactSpec(db, req, sender, receiver).value;
    assert AccountsOf(after, c) == Settled(AccountsOf(db, c), req, c);
  }

  /**
   * The record of an accepted transfer between two different, existing accounts: its
   * `sender` is the account whose credits fell by `amount` and its `receiver` the one
   * whose credits rose by it; the type and the amount are stored as given; it is the
   * last of the log.
   */
  lemma TransactOrientation(db: Db, req: Request, sender: Account, receiver: Account)
    requires TransactSpec(db, req, sender, receiver).Ok?
    requires req.senderId in AccountsOf(db, req.senderModel) && req.receiverId in AccountsOf(db, req.receiverModel)
    requires !IsReceiver(req, req.senderModel, req.senderId)
    ensures var after := TransactSpec(db, req, sender, receiver).value;
            |after.transfers| == |db.transfers| + 1 && after.transfers[..|db.transfers|] == db.transfers &&
            var t := after.transfers[|db.transfers|];
            t.kind == req.kind && t.amount == req.amount &&
            t.sender in AccountsOf(after, t.senderModel) && t.receiver in AccountsOf(after, t.receiverModel) &&
            AccountsOf(after, t.senderModel)[t.sender].credits == AccountsOf(db, t.senderModel)[t.sender].credits - req.amount &&
            AccountsOf(after, t.receiverModel)[t.receiver].credits == AccountsOf(db, t.receiverModel)[t.receiver].credits + req.amount
  {
    var after := TransactSpec(db, req, sender, receiver).value;
    assert AccountsOf(after, UserDocs) == Settled(db.users, req, UserDocs);
    assert AccountsOf(after, PlayerDocs) == Settled(db.players, req, PlayerDocs);
  }

  /**
   * The counters of an accepted transfer between two different accounts: a recharge
   * adds `amount` to the receiver's `totalRecharge` and the sender's `totalRedeem`, a
   * redeem to the sender's `totalRecharge` and the receiver's `totalRedeem`.
   */
  lemma TransactCounters(db: Db, req: Request, sender: Account, receiver: Account)
    requires TransactSpec(db, req, sender, receiver).Ok?
    requires req.senderId in AccountsOf(db, req.senderModel) && req.receiverId in AccountsOf(db, req.receiverModel)
    requires !IsReceiver(req, req.senderModel, req.senderId)
    ensures var after := TransactSpec(db, req, sender, receiver).value;
            var s0 := AccountsOf(db, req.senderModel)[req.senderId];
            var v0 := AccountsOf(db, req.receiverModel)[req.receiverId];
            var s1 := AccountsOf(after, req.senderModel)[req.senderId];
            var v1 := AccountsOf(after, req.receiverModel)[req.receiverId];
            if req.kind == RechargeTx then
              v1.totalRecharge == v0.totalRecharge + req.amount && s1.totalRedeem == s0.totalRedeem + req.amount &&
              s1.totalRecharge == s0.totalRecharge && v1.totalRedeem == v0.totalRedeem
            else
              s1.totalRecharge == s0.totalRecharge + req.amount && v1.totalRedeem == v0.totalRedeem + req.amount &&
              v1.totalRecharge == v0.totalRecharge && s1.totalRedeem == s0.totalRedeem
  {
    var after := TransactSpec(db, req, sender, receiver).value;
    assert AccountsOf(after, UserDocs) == Settled(db.users, req, UserDocs);
    assert AccountsOf(after, PlayerDocs) == Settled(db.players, req, PlayerDocs);
  }
}
