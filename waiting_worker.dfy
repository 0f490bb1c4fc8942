/**
 * The promotion sweep of the waiting-queue worker (`checkBetsCommenceTime`): every
 * leg whose event has started moves from the waiting set to the head of the
 * processing list, in one MULTI step; a leg whose records are gone, or whose MULTI
 * fails, is dropped from the waiting set without being enqueued.
 */
module WaitingWorker {
  import opened Records
  import opened WaitingQueue
  import opened ProcessingQueue

  /** The gate of the sweep: `now >= new Date(commence_time).getTime()`. */
  predicate Due(m: Member, now: int)
  {
    now >= m.commenceTime
  }

  /** The leg and its parent bet both exist, so the member is pushed rather than dropped. */
  predicate HasRecords(db: Db, m: Member)
  {
    m.betId in db.details && db.details[m.betId].key in db.bets
  }

  /** The leg snapshots the sweep pushes, in the order the members were fetched; `fails` are the members whose MULTI throws. */
  function Promotions(db: Db, fetched: seq<Member>, now: int, fails: set<Member>): (r: seq<BetDetail>)
    ensures |r| <= |fetched|
    ensures forall d :: d in r ==>
      exists m :: m in fetched && Due(m, now) && HasRecords(db, m) && m !in fails && d == db.details[m.betId]
  {
    if fetched == [] then []
    else
      var m := fetched[|fetched| - 1];
      var rest := Promotions(db, fetched[..|fetched| - 1], now, fails);
      if Due(m, now) && HasRecords(db, m) && m !in fails then rest + [db.details[m.betId]] else rest
  }

  /** The fetched members whose leg snapshot the sweep pushes, in fetch order. */
  function Promoted(db: Db, fetched: seq<Member>, now: int, fails: set<Member>): (r: seq<Member>)
    ensures forall m :: m in r <==> m in fetched && Due(m, now) && HasRecords(db, m) && m !in fails
  {
    if fetched == [] then []
    else
      var m := fetched[|fetched| - 1];
      var rest := Promoted(db, fetched[..|fetched| - 1], now, fails);
      assert fetched == fetched[..|fetched| - 1] + [m];
      if Due(m, now) && HasRecords(db, m) && m !in fails then rest + [m] else rest
  }

  /** The pushed snapshots are those of the promoted members, position by position. */
  lemma {:induction false} PromotionsOfPromoted(db: Db, fetched: seq<Member>, now: int, fails: set<Member>)
    ensures |Promotions(db, fetched, now, fails)| == |Promoted(db, fetched, now, fails)|
    ensures forall i :: 0 <= i < |Promoted(db, fetched, now, fails)| ==>
      HasRecords(db, Promoted(db, fetched, now, fails)[i]) &&
      Promotions(db, fetched, now, fails)[i] == db.details[Promoted(db, fetched, now, fails)[i].betId]
    decreases |fetched|
  {
    if fetched != [] {
      PromotionsOfPromoted(db, fetched[..|fetched| - 1], now, fails);
    }
  }

  /**
   * Promoting keeps the fetch order: from a duplicate-free fetch in ascending score
   * order, each member is promoted at most once and in ascending score order.
   */
  lemma {:induction false} PromotedOnceInOrder(db: Db, fetched: seq<Member>, now: int, fails: set<Member>,
                                               entries: map<Member, real>)
    requires Distinct(fetched) && Ascending(fetched, entries)
    ensures Distinct(Promoted(db, fetched, now, fails)) && Ascending(Promoted(db, fetched, now, fails), entries)
    decreases |fetched|
  {
    if fetched != [] {
      var front := fetched[..|fetched| - 1];
      var m := fetched[|fetched| - 1];
      var rest := Promoted(db, front, now, fails);
      assert Distinct(front) && Ascending(front, entries);
      PromotedOnceInOrder(db, front, now, fails, entries);
      forall k | k in rest
        ensures k != m && k in entries && m in entries && entries[k] <= entries[m]
      {
        var i :| 0 <= i < |front| && front[i] == k;
        assert fetched[i] == k;
      }
      if Due(m, now) && HasRecords(db, m) && m !in fails {
        SnocInOrder(rest, m, entries);
      }
    }
  }

  /** Appending a member that is new and scores at least as high as every earlier one keeps the order. */
  lemma SnocInOrder(ms: seq<Member>, m: Member, entries: map<Member, real>)
    requires Distinct(ms) && Ascending(ms, entries)
    requires forall k :: k in ms ==> k != m && k in entries && m in entries && entries[k] <= entries[m]
    ensures Distinct(ms + [m]) && Ascending(ms + [m], entries)
  {
    var s := ms + [m];
    forall i, j | 0 <= i < j < |s|
      ensures s[i] != s[j] && s[i] in entries && s[j] in entries && entries[s[i]] <= entries[s[j]]
    {
      if j == |ms| {
        assert s[i] == ms[i] && ms[i] in ms;
      } else {
        assert s[i] == ms[i] && s[j] == ms[j];
      }
    }
  }

  /** The fetched members the sweep removes from the waiting set. */
  function DueMembers(fetched: seq<Member>, now: int): set<Member>
  {
    set m | m in fetched && Due(m, now)
  }

  /** Every due, promotable fetched member contributes its leg snapshot. */
  lemma {:induction false} PromotionsCover(db: Db, fetched: seq<Member>, now: int, fails: set<Member>, k: Member)
    requires k in fetched && Due(k, now) && HasRecords(db, k) && k !in fails
    ensures db.details[k.betId] in Promotions(db, fetched, now, fails)
    decreases |fetched|
  {
    var last := fetched[|fetched| - 1];
    if k != last {
      assert fetched == fetched[..|fetched| - 1] + [last];
      assert k in fetched[..|fetched| - 1];
      PromotionsCover(db, fetched[..|fetched| - 1], now, fails, k);
    }
  }

  lemma {:induction false} PushAllSnoc(items: seq<BetDetail>, xs: seq<BetDetail>, x: BetDetail)
    ensures PushAll(items, xs + [x]) == [x] + PushAll(items, xs)
    decreases |xs|
  {
    if xs == [] {
      assert PushAll(items, [x]) == PushAll([x] + items, []);
    } else {
      assert (xs + [x])[0] == xs[0];
      assert (xs + [x])[1..] == xs[1..] + [x];
      PushAllSnoc([xs[0]] + items, xs[1..], x);
    }
  }

  /**
   * `checkBetsCommenceTime` at time `now` (milliseconds): fetches the members with
   * score in [0, now], and for each due one pushes its leg snapshot and removes it, or
   * only removes it.  Members not due stay.  The range comes back in ascending score
   * order with each member once, and the pushed legs come out of the processing list in
   * that order (`PromotedOnceInOrder`).
   */
  method CheckBetsCommenceTime(db: Db, wq: SortedSet, pq: Queue, now: int, fails: set<Member>) returns (fetched: seq<Member>)
    modifies wq, pq
    ensures forall m :: m in fetched <==> m in old(wq.entries) && 0.0 <= old(wq.entries)[m] <= now as real
    ensures Distinct(fetched) && Ascending(fetched, old(wq.entries))
    ensures wq.entries == old(wq.entries) - DueMembers(fetched, now)
    ensures pq.items == PushAll(old(pq.items), Promotions(db, fetched, now, fails))
    ensures Drain(pq.items) == Drain(old(pq.items)) + Promotions(db, fetched, now, fails)
  {
    fetched := wq.RangeByScore(0.0, now as real);
    ghost var entries0 := wq.entries;
    ghost var items0 := pq.items;
    var i := 0;
    while i < |fetched|
      invariant 0 <= i <= |fetched|
      invariant wq.entries == entries0 - DueMembers(fetched[..i], now)
      invariant pq.items == PushAll(items0, Promotions(db, fetched[..i], now, fails))
    {
      PromoteNext(db, wq, pq, fetched, i, now, fails, entries0, items0);
      i := i + 1;
    }
    assert fetched[..|fetched|] == fetched;
    FifoOrder(items0, Promotions(db, fetched, now, fails));
  }

  /** One pass of the sweep, on the `i`-th fetched member. */
  method PromoteNext(db: Db, wq: SortedSet, pq: Queue, fetched: seq<Member>, i: int, now: int, fails: set<Member>,
                     ghost entries0: map<Member, real>, ghost items0: seq<BetDetail>)
    requires 0 <= i < |fetched|
    requires wq.entries == entries0 - DueMembers(fetched[..i], now)
    requires pq.items == PushAll(items0, Promotions(db, fetched[..i], now, fails))
    modifies wq, pq
    ensures wq.entries == entries0 - DueMembers(fetched[..i + 1], now)
    ensures pq.items == PushAll(items0, Promotions(db, fetched[..i + 1], now, fails))
  {
    var m := fetched[i];
    assert fetched[..i + 1] == fetched[..i] + [m];
    assert fetched[..i + 1][..i] == fetched[..i];
    assert DueMembers(fetched[..i + 1], now) == DueMembers(fetched[..i], now) + (if Due(m, now) then {m} else {});
    if now >= m.commenceTime {
      if m.betId !in db.details || db.details[m.betId].key !in db.bets {
        wq.Remove(m);
      } else if m in fails {
        wq.Remove(m);
      } else {
        PushAllSnoc(items0, Promotions(db, fetched[..i], now, fails), db.details[m.betId]);
        pq.Enqueue(db.details[m.betId]);
        wq.Remove(m);
      }
    }
  }

  /** After a sweep no due member of the fetched range is left waiting, and every member not due is kept with its score. */
  lemma SweepLeavesOnlyFuture(before: map<Member, real>, fetched: seq<Member>, now: int, m: Member)
    requires m in before - DueMembers(fetched, now)
    ensures m in fetched ==> !Due(m, now)
    ensures (before - DueMembers(fetched, now))[m] == before[m]
  {
  }
}
