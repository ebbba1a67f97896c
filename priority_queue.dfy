/**
 * A model of the `priorityqueuejs` class that backend/routes/tickets.js uses.
 *
 * The library is built with a comparator `cmp` and always dequeues an element
 * that `cmp` ranks highest: `cmp(a, b) > 0` means `a` comes out before `b`.
 * Every comparator in this model has the form `(a, b) => key(a) - key(b)`
 * for an integer `key`, so the queue is kept as that `key`.  Only the
 * multiset of queued elements is visible; which of several elements of equal
 * key `Deq` returns is left open, as the library does not promise one.
 */
module PriorityQueues {
  import opened Wrappers

  /** The index of an element of largest key in a non-empty sequence. */
  method IndexOfHighest<T>(s: seq<T>, key: T -> int) returns (k: nat)
    requires |s| > 0
    ensures k < |s|
    ensures forall j :: 0 <= j < |s| ==> key(s[j]) <= key(s[k])
  {
    k := 0;
    var i := 1;
    while i < |s|
      invariant 1 <= i <= |s|
      invariant k < i
      invariant forall j :: 0 <= j < i ==> key(s[j]) <= key(s[k])
    {
      if key(s[i]) > key(s[k]) {
        k := i;
      }
      i := i + 1;
    }
  }

  class PriorityQueue<T> {
    /** The comparator is `(a, b) => key(a) - key(b)`. */
    const key: T -> int
    /** The queued elements, as a multiset: the only view clients get. */
    ghost var Contents: multiset<T>
    var elements: seq<T>

    ghost predicate Valid()
      reads this
    {
      Contents == multiset(elements)
    }

    /** `new PriorityQueue((a, b) => key(a) - key(b))`: an empty queue. */
    constructor (key: T -> int)
      ensures Valid()
      ensures this.key == key
      ensures Contents == multiset{}
    {
      this.key := key;
      elements := [];
      Contents := multiset{};
    }

    method IsEmpty() returns (empty: bool)
      requires Valid()
      ensures empty <==> Contents == multiset{}
    {
      empty := |elements| == 0;
      assert |Contents| == |elements|;
    }

    method Size() returns (size: nat)
      requires Valid()
      ensures size == |Contents|
    {
      size := |elements|;
    }

    /** `enq(x)` adds `x` and returns the new size. */
    method Enq(x: T) returns (size: nat)
      requires Valid()
      modifies this
      ensures Valid()
      ensures Contents == old(Contents) + multiset{x}
      ensures size == |Contents|
    {
      elements := elements + [x];
      Contents := Contents + multiset{x};
      size := |elements|;
    }

    /**
     * `deq()` removes and returns an element of largest key.  On an empty
     * queue the library throws "PriorityQueue is empty"; here that is `None`
     * and the queue is left as it was.
     */
    method Deq() returns (r: Option<T>)
      requires Valid()
      modifies this
      ensures Valid()
      ensures old(Contents) == multiset{} ==> r == None && Contents == old(Contents)
      ensures old(Contents) != multiset{} ==>
                r.Some? && r.value in old(Contents)
                && (forall x :: x in old(Contents) ==> key(x) <= key(r.value))
                && Contents == old(Contents) - multiset{r.value}
    {
      if |elements| == 0 {
        return None;
      }
      var k := IndexOfHighest(elements, key);
      r := Some(elements[k]);
      assert elements == elements[..k] + [elements[k]] + elements[k + 1..];
      forall x | x in Contents
        ensures key(x) <= key(elements[k])
      {
        var j :| 0 <= j < |elements| && elements[j] == x;
      }
      elements := elements[..k] + elements[k + 1..];
      Contents := Contents - multiset{r.value};
    }
  }
}
