/** Bounded FIFO dedupe sets: the connectors' `lruSet` and the workflow's delivery dedupe. */
module Dedupe {

  // The two fields both implementations keep: a lookup set and the admission order.
  datatype Fifo = Fifo(keys: set<string>, order: seq<string>)

  const EMPTY: Fifo := Fifo({}, [])

  // Admit a key that is not present, trimming the oldest one when over capacity.
  function Admit(f: Fifo, cap: int, key: string): Fifo {
    var order := f.order + [key];
    var keys := f.keys + {key};
    if |order| > cap then Fifo(keys - {order[0]}, order[1..]) else Fifo(keys, order)
  }

  // One `seen` call: the new state and whether the key was already present.
  function See(f: Fifo, cap: int, key: string): (Fifo, bool) {
    if key in f.keys then (f, true) else (Admit(f, cap, key), false)
  }

  // ---- the specification: "the last cap admitted keys" ----

  function LastN(admitted: seq<string>, cap: int): seq<string> {
    var n := if cap < 0 then 0 else cap;
    if |admitted| <= n then admitted else admitted[|admitted| - n..]
  }

  // The keys admitted by a call sequence, oldest first, defined from the window alone.
  function Admitted(calls: seq<string>, cap: int): seq<string> {
    if calls == [] then []
    else
      var before := Admitted(calls[..|calls| - 1], cap);
      var key := calls[|calls| - 1];
      if key in LastN(before, cap) then before else before + [key]
  }

  ghost predicate Distinct(s: seq<string>) {
    forall i, j :: 0 <= i < j < |s| ==> s[i] != s[j]
  }

  ghost predicate Windows(f: Fifo, cap: int, admitted: seq<string>) {
    && f.order == LastN(admitted, cap)
    && Distinct(f.order)
    && f.keys == (set k | k in f.order)
  }

  // The window after one more admission: the oldest key leaves when there is no room.
  lemma WindowSlides(admitted: seq<string>, cap: int, key: string)
    ensures var order := LastN(admitted, cap) + [key];
      LastN(admitted + [key], cap) == if |order| > cap then order[1..] else order
  {}

  // One call keeps the window: the key is reported seen exactly when it is among the last cap
  // admitted, and otherwise it becomes the newest admitted key.
  lemma SeeKeepsWindow(f: Fifo, cap: int, admitted: seq<string>, key: string)
    requires Windows(f, cap, admitted)
    ensures See(f, cap, key).1 <==> key in LastN(admitted, cap)
    ensures Windows(See(f, cap, key).0, cap, if See(f, cap, key).1 then admitted else admitted + [key])
  {
    WindowSlides(admitted, cap, key);
    hide LastN;
    if key !in f.keys {
      var order := f.order + [key];
      var g := Admit(f, cap, key);
      assert key !in f.order;
      if |order| > cap {
        assert forall k :: k in g.order ==> k in order && k != order[0];
        forall k | k in g.keys ensures k in g.order {
          assert k in order;
          var i :| 0 <= i < |order| && order[i] == k;
          assert i > 0 && g.order[i - 1] == k;
        }
      }
    }
  }

  function Feed(calls: seq<string>, cap: int): Fifo {
    if calls == [] then EMPTY
    else See(Feed(calls[..|calls| - 1], cap), cap, calls[|calls| - 1]).0
  }

  // After any call sequence the set is exactly the order queue, the queue is duplicate-free and at
  // most cap long, and the next key is reported seen exactly when it is among the last cap admitted.
  lemma {:induction false} FeedRefinesWindow(calls: seq<string>, cap: int, next: string)
    ensures Windows(Feed(calls, cap), cap, Admitted(calls, cap))
    ensures |Feed(calls, cap).order| <= (if cap < 0 then 0 else cap)
    ensures See(Feed(calls, cap), cap, next).1 <==> next in LastN(Admitted(calls, cap), cap)
  {
    if calls != [] {
      var before := calls[..|calls| - 1];
      FeedRefinesWindow(before, cap, next);
      SeeKeepsWindow(Feed(before, cap), cap, Admitted(before, cap), calls[|calls| - 1]);
    }
    SeeKeepsWindow(Feed(calls, cap), cap, Admitted(calls, cap), next);
  }

  /** The connectors' dedupe object. `calls` is the history of arguments. */
  class LruSet {
    var keys: set<string>
    var order: seq<string>
    const cap: int
    ghost var calls: seq<string>

    ghost predicate Valid() reads this {
      Fifo(keys, order) == Feed(calls, cap)
    }

    constructor (capacity: int)
      ensures Valid() && cap == capacity && calls == []
    {
      keys, order, cap, calls := {}, [], capacity, [];
    }

    method Seen(key: string) returns (dup: bool)
      requires Valid()
      modifies this
      ensures Valid() && calls == old(calls) + [key]
      ensures dup <==> key in LastN(Admitted(old(calls), cap), cap)
      ensures Windows(Fifo(keys, order), cap, Admitted(calls, cap))
    {
      ghost var before := calls;
      FeedRefinesWindow(before, cap, key);
      FeedRefinesWindow(before + [key], cap, key);
      assert (before + [key])[..|before|] == before;
      calls := calls + [key];
      if key in keys {
        return true;
      }
      keys := keys + {key};
      order := order + [key];
      if |order| > cap {
        keys := keys - {order[0]};
        order := order[1..];
      }
      return false;
    }
  }
}
