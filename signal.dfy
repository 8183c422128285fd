/** Model of `makeSignal` (src/lib/index.ts): an ordered list of distinct
    subscribers, with subscribe, unsubscribe, emit, emitFor and the
    subscription count. */
module Signals {

  /** The identity of a subscriber function. JavaScript deduplicates
      subscribers by reference, so only identity matters here.
      `Callback(name)` stands for a function written by a user of the
      library; `Handler(owner, slot)` for a closure that the composite signal
      `owner` creates to listen to its `slot`-th source. */
  datatype Subscriber = Callback(name: nat) | Handler(owner: object, slot: nat)

  /** The function `subscribe` returns: calling it unsubscribes `subscriber`
      from `signal`. */
  datatype UnsubscribeHandle = UnsubscribeHandle(signal: Signal, subscriber: Subscriber) {
    method Call()
      requires signal.Valid()
      modifies signal
      ensures signal.Valid()
      ensures signal.subscribers == Remove(old(signal.subscribers), subscriber)
    {
      signal.Unsubscribe(subscriber);
    }
  }

  predicate NoDuplicates(s: seq<Subscriber>) {
    forall i, j :: 0 <= i < j < |s| ==> s[i] != s[j]
  }

  /** `Array.prototype.indexOf`: the first position of `x` in `s`, or -1. */
  function IndexOf(s: seq<Subscriber>, x: Subscriber): (r: int)
    ensures -1 <= r < |s|
    ensures r == -1 <==> x !in s
    ensures 0 <= r ==> s[r] == x && x !in s[..r]
  {
    if s == [] then -1
    else if s[0] == x then 0
    else
      var k := IndexOf(s[1..], x);
      if k == -1 then -1 else k + 1
  }

  /** The list after `subscribe(x)`: `x` is pushed when `indexOf` does not find it. */
  function Add(s: seq<Subscriber>, x: Subscriber): (r: seq<Subscriber>)
    ensures x in r
    ensures x in s ==> r == s
    ensures x !in s ==> r == s + [x] && |r| == |s| + 1
    ensures NoDuplicates(s) ==> NoDuplicates(r)
  {
    if IndexOf(s, x) == -1 then s + [x] else s
  }

  /** The list after `unsubscribe(x)`: its first occurrence of `x` taken out. */
  function Remove(s: seq<Subscriber>, x: Subscriber): (r: seq<Subscriber>)
    ensures x !in s ==> r == s
    ensures x in s ==> |r| == |s| - 1
    ensures forall y :: y in r ==> y in s
  {
    if s == [] then []
    else if s[0] == x then s[1..]
    else [s[0]] + Remove(s[1..], x)
  }

  /** `Remove` is `splice(indexOf(x), 1)` when `indexOf` finds `x`. */
  lemma {:induction false} RemoveSplices(s: seq<Subscriber>, x: Subscriber)
    requires x in s
    ensures Remove(s, x) == s[..IndexOf(s, x)] + s[IndexOf(s, x) + 1..]
  {
    if s[0] != x {
      RemoveSplices(s[1..], x);
      var i := IndexOf(s[1..], x);
      assert s[..i + 1] == [s[0]] + s[1..][..i];
      assert s[i + 2..] == s[1..][i + 1..];
    }
  }

  /** Reference definition of removal: `s` with every element of `xs` left
      out and the others kept in their order. */
  function Without(s: seq<Subscriber>, xs: set<Subscriber>): seq<Subscriber> {
    if s == [] then []
    else if s[0] in xs then Without(s[1..], xs)
    else [s[0]] + Without(s[1..], xs)
  }

  lemma {:induction false} WithoutMembers(s: seq<Subscriber>, xs: set<Subscriber>)
    ensures forall y :: y in Without(s, xs) <==> y in s && y !in xs
  {
    if s != [] {
      WithoutMembers(s[1..], xs);
      assert s == [s[0]] + s[1..];
    }
  }

  lemma {:induction false} WithoutNoDuplicates(s: seq<Subscriber>, xs: set<Subscriber>)
    requires NoDuplicates(s)
    ensures NoDuplicates(Without(s, xs))
  {
    if s != [] {
      WithoutNoDuplicates(s[1..], xs);
      WithoutMembers(s[1..], xs);
      assert s[0] !in s[1..];
    }
  }

  lemma {:induction false} WithoutConcat(a: seq<Subscriber>, b: seq<Subscriber>, xs: set<Subscriber>)
    ensures Without(a + b, xs) == Without(a, xs) + Without(b, xs)
  {
    if a == [] {
      assert a + b == b;
    } else {
      assert (a + b)[1..] == a[1..] + b;
      WithoutConcat(a[1..], b, xs);
    }
  }

  /** Removing elements that do not occur in `s` leaves `s` as it is. */
  lemma {:induction false} WithoutAbsent(s: seq<Subscriber>, xs: set<Subscriber>)
    requires forall y :: y in s ==> y !in xs
    ensures Without(s, xs) == s
  {
    if s != [] {
      WithoutAbsent(s[1..], xs);
      assert s == [s[0]] + s[1..];
    }
  }

  /** Removing `xs` and then `ys` is removing both at once. */
  lemma {:induction false} WithoutTwice(s: seq<Subscriber>, xs: set<Subscriber>, ys: set<Subscriber>)
    ensures Without(Without(s, xs), ys) == Without(s, xs + ys)
  {
    if s != [] {
      WithoutTwice(s[1..], xs, ys);
    }
  }

  /** Only the part of `ys` that occurs in `s` matters. */
  lemma {:induction false} WithoutIrrelevant(s: seq<Subscriber>, xs: set<Subscriber>, ys: set<Subscriber>)
    requires forall y :: y in s && y in ys ==> y in xs
    ensures Without(s, xs + ys) == Without(s, xs)
  {
    if s != [] {
      WithoutIrrelevant(s[1..], xs, ys);
    }
  }

  /** On a list without duplicates, `splice(indexOf(x), 1)` takes out exactly
      `x` and keeps every other subscriber in its order. */
  lemma {:induction false} RemoveIsWithout(s: seq<Subscriber>, x: Subscriber)
    requires NoDuplicates(s)
    ensures Remove(s, x) == Without(s, {x})
    ensures NoDuplicates(Remove(s, x)) && x !in Remove(s, x)
  {
    if s != [] {
      if s[0] == x {
        assert x !in s[1..] by {
          forall k | 1 <= k < |s| ensures s[k] != x { assert s[0] != s[k]; }
        }
        WithoutAbsent(s[1..], {x});
      } else {
        RemoveIsWithout(s[1..], x);
      }
    }
    WithoutNoDuplicates(s, {x});
    WithoutMembers(s, {x});
  }

  /** Unsubscribing twice, or through a second handle for the same
      subscriber, changes nothing more than unsubscribing once. */
  lemma RemoveIdempotent(s: seq<Subscriber>, x: Subscriber)
    requires NoDuplicates(s)
    ensures Remove(Remove(s, x), x) == Remove(s, x)
  {
    RemoveIsWithout(s, x);
  }

  /** Subscribing a present subscriber again changes nothing. */
  lemma AddIdempotent(s: seq<Subscriber>, x: Subscriber)
    ensures Add(Add(s, x), x) == Add(s, x)
  {
  }

  /** Unsubscribing right after a fresh subscribe restores the list. */
  lemma {:induction false} RemoveUndoesAdd(s: seq<Subscriber>, x: Subscriber)
    requires x !in s
    ensures Remove(Add(s, x), x) == s
  {
    if s != [] {
      RemoveUndoesAdd(s[1..], x);
      assert (s + [x])[1..] == s[1..] + [x];
    }
  }

  /** The set of subscribed functions. */
  ghost function Members(s: seq<Subscriber>): set<Subscriber> {
    set x | x in s
  }

  /** On a list without duplicates the length counts the distinct subscribers. */
  lemma {:induction false} CountIsDistinct(s: seq<Subscriber>)
    requires NoDuplicates(s)
    ensures |s| == |Members(s)|
  {
    if s != [] {
      CountIsDistinct(s[1..]);
      assert Members(s) == Members(s[1..]) + {s[0]};
      assert s[0] !in Members(s[1..]);
    }
  }

  /** The deliveries `emit(v)` makes to the subscribers `s`, in order. */
  function Broadcast<T>(s: seq<Subscriber>, v: T): (log: seq<(Subscriber, T)>)
    ensures |log| == |s|
    ensures forall k :: 0 <= k < |log| ==> log[k].1 == v
  {
    if s == [] then [] else Broadcast(s[..|s| - 1], v) + [(s[|s| - 1], v)]
  }

  /** The deliveries in `log` addressed to `x`. */
  function DeliveriesTo<T>(log: seq<(Subscriber, T)>, x: Subscriber): seq<(Subscriber, T)> {
    if log == [] then []
    else DeliveriesTo(log[..|log| - 1], x) + (if log[|log| - 1].0 == x then [log[|log| - 1]] else [])
  }

  /** `emit(v)` makes one delivery per subscriber, in subscription order, all of `v`. */
  lemma {:induction false} BroadcastAt<T>(s: seq<Subscriber>, v: T)
    ensures |Broadcast(s, v)| == |s|
    ensures forall k :: 0 <= k < |s| ==> Broadcast(s, v)[k] == (s[k], v)
  {
    if s != [] {
      BroadcastAt(s[..|s| - 1], v);
    }
  }

  /** Each current subscriber receives `v` exactly once; nobody else receives anything. */
  lemma {:induction false} BroadcastReachesOnce<T>(s: seq<Subscriber>, v: T, x: Subscriber)
    requires NoDuplicates(s)
    ensures DeliveriesTo(Broadcast(s, v), x) == if x in s then [(x, v)] else []
  {
    if s != [] {
      var init := s[..|s| - 1];
      BroadcastReachesOnce(init, v, x);
      assert s == init + [s[|s| - 1]];
      assert Broadcast(s, v)[..|Broadcast(s, v)| - 1] == Broadcast(init, v);
      if s[|s| - 1] == x {
        assert x !in init by {
          forall k | 0 <= k < |init| ensures init[k] != x { assert s[k] != s[|s| - 1]; }
        }
      }
    }
  }

  /** After `x` is unsubscribed, an emit no longer reaches `x`, and every
      other subscriber still receives exactly what it received before. */
  lemma UnsubscribedMissesLaterEmits<T>(s: seq<Subscriber>, x: Subscriber, y: Subscriber, v: T)
    requires NoDuplicates(s) && y != x
    ensures DeliveriesTo(Broadcast(Remove(s, x), v), x) == []
    ensures DeliveriesTo(Broadcast(Remove(s, x), v), y) == DeliveriesTo(Broadcast(s, v), y)
  {
    RemoveIsWithout(s, x);
    WithoutMembers(s, {x});
    BroadcastReachesOnce(Remove(s, x), v, x);
    BroadcastReachesOnce(Remove(s, x), v, y);
    BroadcastReachesOnce(s, v, y);
  }

  /** A signal made by `makeSignal`: the `subscribers` array of its closures. */
  class Signal {
    var subscribers: seq<Subscriber>

    /** A subscriber appears at most once. */
    ghost predicate Valid()
      reads this
    {
      NoDuplicates(subscribers)
    }

    constructor ()
      ensures Valid() && subscribers == []
    {
      subscribers := [];
    }

    /** The `nOfSubscriptions` getter: the number of distinct subscribed functions. */
    function NOfSubscriptions(): (n: nat)
      reads this
      requires Valid()
      ensures n == |Members(subscribers)|
    {
      CountIsDistinct(subscribers);
      |subscribers|
    }

    method Subscribe(s: Subscriber) returns (unsubscribe: UnsubscribeHandle)
      requires Valid()
      modifies this
      ensures Valid()
      ensures subscribers == Add(old(subscribers), s)
      ensures unsubscribe == UnsubscribeHandle(this, s)
    {
      var index := IndexOf(subscribers, s);
      if index == -1 {
        subscribers := subscribers + [s];
      }
      unsubscribe := UnsubscribeHandle(this, s);
    }

    method Unsubscribe(s: Subscriber)
      requires Valid()
      modifies this
      ensures Valid()
      ensures subscribers == Remove(old(subscribers), s)
    {
      RemoveIsWithout(subscribers, s);
      var index := IndexOf(subscribers, s);
      if index != -1 {
        RemoveSplices(subscribers, s);
        subscribers := subscribers[..index] + subscribers[index + 1..];
      }
    }

    /** Calls every subscriber with `v`, in array order; the result is the
        sequence of calls made. */
    method Emit<T>(v: T) returns (log: seq<(Subscriber, T)>)
      ensures log == Broadcast(subscribers, v)
    {
      log := [];
      for k := 0 to |subscribers|
        invariant log == Broadcast(subscribers[..k], v)
      {
        assert subscribers[..k + 1][..k] == subscribers[..k];
        log := log + [(subscribers[k], v)];
      }
      assert subscribers[..|subscribers|] == subscribers;
    }

    /** Calls `s` with `v` if `s` is subscribed, and nobody otherwise. */
    method EmitFor<T>(s: Subscriber, v: T) returns (log: seq<(Subscriber, T)>)
      requires Valid()
      ensures log == if s in subscribers then [(s, v)] else []
      ensures log == DeliveriesTo(Broadcast(subscribers, v), s)
    {
      BroadcastReachesOnce(subscribers, v, s);
      var index := IndexOf(subscribers, s);
      if index != -1 {
        log := [(s, v)];
      } else {
        log := [];
      }
    }
  }
}
