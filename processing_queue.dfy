/**
 * The Redis list `processingQueue`, which holds snapshots of legs whose event has
 * started and which the processing worker settles.  Items are pushed on the left
 * (LPUSH) and popped from the right (RPOP), so the list is a FIFO queue whose oldest
 * item is its last element.  An item is the JSON snapshot of a leg; two snapshots are
 * the same string exactly when they are the same record.
 */
module ProcessingQueue {
  import opened Wrappers
  import opened Records

  /** The item the next RPOP returns: the last element, or `null` for an empty list. */
  function NextOut(items: seq<BetDetail>): (r: Option<BetDetail>)
    ensures r.None? <==> items == []
    ensures r.Some? ==> r.value == items[|items| - 1]
  {
    if items == [] then None else Some(items[|items| - 1])
  }

  /** LREM with count 0: every element equal to `x` is removed, the others keep their order. */
  function RemoveAll(items: seq<BetDetail>, x: BetDetail): (r: seq<BetDetail>)
    ensures forall y :: y in r <==> y in items && y != x
    ensures multiset(r)[x] == 0
    ensures forall y :: y != x ==> multiset(r)[y] == multiset(items)[y]
    ensures |items| - |r| == multiset(items)[x]
  {
    if items == [] then []
    else
      assert items == [items[0]] + items[1..];
      (if items[0] == x then [] else [items[0]]) + RemoveAll(items[1..], x)
  }

  /** Removing an item twice leaves the list as removing it once. */
  lemma {:induction false} RemoveAllIdempotent(items: seq<BetDetail>, x: BetDetail)
    ensures RemoveAll(RemoveAll(items, x), x) == RemoveAll(items, x)
  {
    if items != [] {
      RemoveAllIdempotent(items[1..], x);
      if items[0] == x {
        assert RemoveAll(items, x) == RemoveAll(items[1..], x);
      } else {
        assert RemoveAll(items, x) == [items[0]] + RemoveAll(items[1..], x);
        assert RemoveAll(items, x)[1..] == RemoveAll(items[1..], x);
      }
    }
  }

  /** Removal keeps the relative order of what remains: removing an item commutes with LPUSH of a different one. */
  lemma RemoveAllAfterPush(items: seq<BetDetail>, y: BetDetail, x: BetDetail)
    requires y != x
    ensures RemoveAll([y] + items, x) == [y] + RemoveAll(items, x)
  {
    assert ([y] + items)[1..] == items;
  }

  /** The order in which repeated RPOPs return the items of a list. */
  function Drain(items: seq<BetDetail>): (r: seq<BetDetail>)
    ensures |r| == |items|
  {
    if items == [] then [] else [items[|items| - 1]] + Drain(items[..|items| - 1])
  }

  /** The list after LPUSH of each of `xs` in turn. */
  function PushAll(items: seq<BetDetail>, xs: seq<BetDetail>): (r: seq<BetDetail>)
    ensures |r| == |items| + |xs|
    decreases |xs|
  {
    if xs == [] then items else PushAll([xs[0]] + items, xs[1..])
  }

  lemma {:induction false} DrainAppend(front: seq<BetDetail>, back: seq<BetDetail>)
    ensures Drain(front + back) == Drain(back) + Drain(front)
    decreases |back|
  {
    if back == [] {
      assert front + back == front;
    } else {
      var n := |back|;
      assert (front + back)[..|front + back| - 1] == front + back[..n - 1];
      assert (front + back)[|front + back| - 1] == back[n - 1];
      DrainAppend(front, back[..n - 1]);
    }
  }

  /** FIFO: items pushed after the current contents come out after them, in the order they were pushed. */
  lemma {:induction false} FifoOrder(items: seq<BetDetail>, xs: seq<BetDetail>)
    ensures Drain(PushAll(items, xs)) == Drain(items) + xs
    decreases |xs|
  {
    if xs == [] {
    } else {
      FifoOrder([xs[0]] + items, xs[1..]);
      DrainAppend([xs[0]], items);
      assert Drain([xs[0]]) == [xs[0]] + Drain([]);
      assert xs == [xs[0]] + xs[1..];
    }
  }

  /** The list, head (the LPUSH end) first. */
  class Queue {
    var items: seq<BetDetail>

    constructor()
      ensures items == []
    {
      items := [];
    }

    /** `enqueue`: LPUSH. */
    method Enqueue(x: BetDetail)
      modifies this
      ensures items == [x] + old(items)
      ensures |items| == |old(items)| + 1
    {
      items := [x] + items;
    }

    /** `dequeue`: RPOP; `None` on an empty list, which stays empty. */
    method Dequeue() returns (r: Option<BetDetail>)
      modifies this
      ensures r == NextOut(old(items))
      ensures old(items) == [] ==> items == []
      ensures old(items) != [] ==> items == old(items)[..|old(items)| - 1] && |items| == |old(items)| - 1
      ensures old(items) != [] ==> old(items) == items + [r.value]
    {
      if items == [] {
        r := None;
      } else {
        r := Some(items[|items| - 1]);
        items := items[..|items| - 1];
      }
    }

    /** `peek`: LRANGE -1 -1, the item the next `dequeue` would return. */
    method Peek() returns (r: Option<BetDetail>)
      ensures r.None? <==> items == []
      ensures r.Some? ==> r.value == items[|items| - 1]
    {
      if items == [] {
        r := None;
      } else {
        r := Some(items[|items| - 1]);
      }
    }

    /** `getAll`: LRANGE 0 -1, the whole list from head to tail. */
    method GetAll() returns (r: seq<BetDetail>)
      ensures r == items
    {
      r := items;
    }

    /** `size`: LLEN. */
    method Size() returns (n: nat)
      ensures n == |items|
    {
      n := |items|;
    }

    /** `removeItem`: LREM 0, returning how many elements it deleted. */
    method RemoveItem(x: BetDetail) returns (count: nat)
      modifies this
      ensures items == RemoveAll(old(items), x)
      ensures count == multiset(old(items))[x]
      ensures x !in items
    {
      count := multiset(items)[x];
      items := RemoveAll(items, x);
    }

    /** `checkIfBetIsInProcessingQueue`: scans the list for an item whose `_id` is `betId`, returning at the first match. */
    method CheckIfBetIsInProcessingQueue(betId: string) returns (found: bool)
      ensures found <==> exists i :: 0 <= i < |items| && items[i].id == betId
    {
      var all := GetAll();
      var i := 0;
      while i < |all|
        invariant 0 <= i <= |all|
        invariant forall k :: 0 <= k < i ==> all[k].id != betId
      {
        if all[i].id == betId {
          return true;
        }
        i := i + 1;
      }
      return false;
    }
  }
}
