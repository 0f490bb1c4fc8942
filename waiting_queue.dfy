/**
 * The Redis sorted set `waitingQueue`, which holds every placed leg until its event
 * starts.  A member is the JSON of `{betId, commence_time}`; its score is the commence
 * time in seconds.
 */
module WaitingQueue {

  /** A sorted-set member: two members are the same string exactly when both fields agree. */
  datatype Member = Member(betId: string, commenceTime: int)   // commenceTime in milliseconds

  /** The score a leg is scheduled with: its commence time divided by 1000, in seconds. */
  function SecondsScore(commenceMs: int): (r: real)
    ensures r * 1000.0 == commenceMs as real
  {
    commenceMs as real / 1000.0
  }

  /**
   * The range query of the promotion sweep reads its upper bound in milliseconds, so a
   * leg scheduled by its score in seconds is fetched long before it is due: any
   * commence time up to 1000 times the current time lies in the range.
   */
  lemma FetchedLongBeforeDue(commenceMs: int, nowMs: int)
    requires 0 <= commenceMs <= 1000 * nowMs
    ensures 0.0 <= SecondsScore(commenceMs) <= nowMs as real
  {
  }

  /** ZREM on the set as a value. */
  function Without(entries: map<Member, real>, m: Member): (r: map<Member, real>)
    ensures m !in r
    ensures r.Keys == entries.Keys - {m}
    ensures forall k :: k in r ==> r[k] == entries[k]
  {
    entries - {m}
  }

  /** Removing a member twice leaves the set as removing it once, and removing an absent member changes nothing. */
  lemma WithoutIdempotent(entries: map<Member, real>, m: Member)
    ensures Without(Without(entries, m), m) == Without(entries, m)
    ensures m !in entries ==> Without(entries, m) == entries
  {
  }

  /** A member rebuilt with another commence time is a different member: removing it leaves the original in place. */
  lemma MemberIdentity(entries: map<Member, real>, m: Member, t: int)
    requires m in entries && t != m.commenceTime
    ensures m in Without(entries, Member(m.betId, t))
  {
  }

  /** No member occurs twice. */
  predicate Distinct(ms: seq<Member>)
  {
    forall i, j :: 0 <= i < j < |ms| ==> ms[i] != ms[j]
  }

  /** The members are in the set and their scores never decrease along the sequence. */
  predicate Ascending(ms: seq<Member>, entries: map<Member, real>)
  {
    forall i, j :: 0 <= i < j < |ms| ==> ms[i] in entries && ms[j] in entries && entries[ms[i]] <= entries[ms[j]]
  }

  /** A non-empty finite set of members has one of lowest score. */
  lemma {:induction false} LowestExists(s: set<Member>, entries: map<Member, real>)
    requires s != {} && s <= entries.Keys
    ensures exists m :: m in s && forall k :: k in s ==> entries[m] <= entries[k]
    decreases |s|
  {
    var x :| x in s;
    if s - {x} != {} {
      LowestExists(s - {x}, entries);
      var y :| y in s - {x} && forall k :: k in s - {x} ==> entries[y] <= entries[k];
      if entries[x] <= entries[y] {
        assert forall k :: k in s ==> entries[x] <= entries[k];
      } else {
        assert forall k :: k in s ==> entries[y] <= entries[k];
      }
    } else {
      assert s == {x};
    }
  }

  class SortedSet {
    var entries: map<Member, real>

    constructor()
      ensures entries == map[]
    {
      entries := map[];
    }

    /** ZADD: inserts the member, or moves it to the new score. */
    method Add(m: Member, score: real)
      modifies this
      ensures entries == old(entries)[m := score]
    {
      entries := entries[m := score];
    }

    /** `removeFromWaitingQueue`: ZREM of one member. */
    method Remove(m: Member)
      modifies this
      ensures entries == Without(old(entries), m)
    {
      entries := entries - {m};
    }

    /**
     * ZRANGEBYSCORE lo hi: every member whose score lies in [lo, hi], each once, in
     * ascending score order.
     */
    method RangeByScore(lo: real, hi: real) returns (r: seq<Member>)
      ensures forall m :: m in r <==> m in entries && lo <= entries[m] <= hi
      ensures Distinct(r)
      ensures Ascending(r, entries)
    {
      r := [];
      var rest := set m | m in entries && lo <= entries[m] <= hi;
      while rest != {}
        invariant rest <= entries.Keys
        invariant forall m :: m in r ==> m !in rest
        invariant forall m :: m in r || m in rest <==> m in entries && lo <= entries[m] <= hi
        invariant Distinct(r) && Ascending(r, entries)
        invariant forall i, k :: 0 <= i < |r| && k in rest ==> entries[r[i]] <= entries[k]
        decreases rest
      {
        LowestExists(rest, entries);
        var m :| m in rest && forall k :: k in rest ==> entries[m] <= entries[k];
        TakeLowest(r, rest, m, entries);
        r := r + [m];
        rest := rest - {m};
      }
    }
  }

  /** Moving a lowest-score member of `rest` to the end of `r` keeps `r` duplicate-free, ascending and below `rest`. */
  lemma TakeLowest(r: seq<Member>, rest: set<Member>, m: Member, entries: map<Member, real>)
    requires rest <= entries.Keys && m in rest
    requires forall k :: k in rest ==> entries[m] <= entries[k]
    requires forall x :: x in r ==> x !in rest && x in entries
    requires Distinct(r) && Ascending(r, entries)
    requires forall i, k :: 0 <= i < |r| && k in rest ==> entries[r[i]] <= entries[k]
    ensures Distinct(r + [m]) && Ascending(r + [m], entries)
    ensures forall i, k :: 0 <= i < |r + [m]| && k in rest - {m} ==> entries[(r + [m])[i]] <= entries[k]
  {
    var s := r + [m];
    forall i, j | 0 <= i < j < |s|
      ensures s[i] != s[j] && s[i] in entries && s[j] in entries && entries[s[i]] <= entries[s[j]]
    {
      assert s[i] == r[i];
      if j == |r| {
        assert r[i] in r;
      } else {
        assert s[j] == r[j];
      }
    }
  }
}
