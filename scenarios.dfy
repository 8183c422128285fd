/** The subscription-count scenarios of the library's own tests, replayed
    against the model. Each test is split into its stages (create, subscribe,
    emit, unsubscribe); each stage returns the counts the test reads there,
    in the order it reads them. */
module Scenarios {
  import opened Signals
  import opened Composition

  /** What the merge test reads: each source's count, then the merged signal's. */
  function MergedObserved(merged: MergedSignal): (counts: seq<nat>)
    reads merged.Repr()
    requires merged.Valid() && |merged.sources| == 2
    ensures counts == [|merged.sources[0].subscribers|, |merged.sources[1].subscribers|, |merged.base.subscribers|]
  {
    [merged.sources[0].NOfSubscriptions(), merged.sources[1].NOfSubscriptions(), merged.NOfSubscriptions()]
  }

  /** The merge test's set-up: two fresh sources merged, and no count
      raised before the first subscription. */
  method MergedCreated() returns (merged: MergedSignal, created: seq<nat>)
    ensures merged.Valid() && |merged.sources| == 2 && merged.sources[0] != merged.sources[1]
    ensures fresh(merged) && fresh(merged.base) && fresh(merged.sources[0]) && fresh(merged.sources[1])
    ensures merged.Sources() == {merged.sources[0], merged.sources[1]}
    ensures merged.base.subscribers == []
    ensures merged.sources[0].subscribers == [] && merged.sources[1].subscribers == []
    ensures created == [0, 0, 0]
  {
    var signal1 := new Signal();
    var signal2 := new Signal();
    merged := new MergedSignal([signal1, signal2]);
    assert merged.sources[0] == signal1 && merged.sources[1] == signal2;
    assert merged.Sources() == {signal1, signal2};
    created := MergedObserved(merged);
  }

  /** The first subscription attaches each source's own slot handler. */
  method MergedSubscribe(merged: MergedSignal) returns (subscribed: seq<nat>)
    requires merged.Valid() && |merged.sources| == 2 && merged.sources[0] != merged.sources[1]
    requires merged.base.subscribers == []
    requires merged.sources[0].subscribers == [] && merged.sources[1].subscribers == []
    modifies merged.Repr()
    ensures merged.Valid() && merged.base.subscribers == [Callback(0)]
    ensures merged.sources[0].subscribers == [Handler(merged, 0)]
    ensures merged.sources[1].subscribers == [Handler(merged, 1)]
    ensures subscribed == [1, 1, 1]
  {
    ghost var detached := merged.Lists();
    assert detached == [[], []];
    assert merged.unsubscribeOriginals.None?;
    merged.Subscribe(Callback(0));
    assert merged.AttachedTo(detached);
    merged.AttachedOncePerSource(detached);
    subscribed := MergedObserved(merged);
  }

  /** Emits on the sources change no count. */
  method MergedEmit(merged: MergedSignal) returns (emitted: seq<nat>)
    requires merged.Valid() && |merged.sources| == 2 && merged.base.subscribers == [Callback(0)]
    requires merged.sources[0].subscribers == [Handler(merged, 0)]
    requires merged.sources[1].subscribers == [Handler(merged, 1)]
    ensures emitted == [1, 1, 1]
  {
    var _ := merged.sources[0].Emit(10);
    var _ := merged.sources[1].Emit(10);
    emitted := MergedObserved(merged);
  }

  /** The last unsubscription takes one handler out of each source. */
  method MergedUnsubscribe(merged: MergedSignal) returns (unsubscribed: seq<nat>)
    requires merged.Valid() && |merged.sources| == 2 && merged.sources[0] != merged.sources[1]
    requires merged.base.subscribers == [Callback(0)]
    requires merged.sources[0].subscribers == [Handler(merged, 0)]
    requires merged.sources[1].subscribers == [Handler(merged, 1)]
    modifies merged.Repr()
    ensures merged.Valid() && merged.base.subscribers == []
    ensures unsubscribed == [0, 0, 0]
  {
    ghost var attached := merged.Lists();
    merged.Unsubscribe(Callback(0));
    merged.DetachedOncePerSource(attached);
    unsubscribed := MergedObserved(merged);
  }

  /** The merge test: 0, 0, 0 before the first subscription, 1, 1, 1 after
      it and after the emits, and 0, 0, 0 after the unsubscription. */
  method MergedCounts() returns (created: seq<nat>, subscribed: seq<nat>, emitted: seq<nat>, unsubscribed: seq<nat>)
    ensures created == [0, 0, 0]
    ensures subscribed == [1, 1, 1]
    ensures emitted == [1, 1, 1]
    ensures unsubscribed == [0, 0, 0]
  {
    var merged;
    merged, created := MergedCreated();
    subscribed := MergedSubscribe(merged);
    emitted := MergedEmit(merged);
    unsubscribed := MergedUnsubscribe(merged);
  }

  /** A fresh source and a signal derived from it: the source holds
      `emitTransformed` exactly while the derived signal has a subscriber. */
  method DerivedCounts() returns (created: seq<nat>, subscribed: seq<nat>, emitted: seq<nat>, unsubscribed: seq<nat>)
    ensures created == [0, 0]
    ensures subscribed == [1, 1]
    ensures emitted == [1, 1]
    ensures unsubscribed == [0, 0]
  {
    var signal := new Signal();
    var derived := new DerivedSignal(Plain(signal), (n: int) => n + 100);
    created := [signal.NOfSubscriptions(), derived.NOfSubscriptions()];

    derived.Subscribe(Callback(0));
    subscribed := [signal.NOfSubscriptions(), derived.NOfSubscriptions()];

    var _ := signal.Emit(10);
    emitted := [signal.NOfSubscriptions(), derived.NOfSubscriptions()];

    derived.Unsubscribe(Callback(0));
    unsubscribed := [signal.NOfSubscriptions(), derived.NOfSubscriptions()];
  }

  /** The transform of the multi-source derive test: `v1 ?? v2 ?? -1`. */
  function EitherOr(changes: seq<Option<int>>): int {
    if |changes| > 0 && changes[0].Some? then changes[0].value
    else if |changes| > 1 && changes[1].Some? then changes[1].value
    else -1
  }

  /** What the multi-source tests read: each source's count, then the derived signal's. */
  function MultiObserved<T, U>(derived: DerivedSignal<T, U>, merged: MergedSignal): (counts: seq<nat>)
    reads derived.Repr()
    requires derived.Valid() && derived.source == Merged(merged) && |merged.sources| == 2
    ensures counts == [|merged.sources[0].subscribers|, |merged.sources[1].subscribers|, |derived.base.subscribers|]
  {
    [merged.sources[0].NOfSubscriptions(), merged.sources[1].NOfSubscriptions(), derived.NOfSubscriptions()]
  }

  /** The set-up of the `deriveSignals` test: two fresh sources, and no
      count raised before the first subscription. */
  method DeriveMultiCreated() returns (derived: DerivedSignal<seq<Option<int>>, int>, merged: MergedSignal, created: seq<nat>)
    ensures derived.Valid() && derived.source == Merged(merged)
    ensures |merged.sources| == 2 && merged.sources[0] != merged.sources[1]
    ensures fresh(derived) && fresh(derived.base) && fresh(merged) && fresh(merged.base)
    ensures fresh(merged.sources[0]) && fresh(merged.sources[1])
    ensures merged.Sources() == {merged.sources[0], merged.sources[1]}
    ensures derived.base.subscribers == [] && merged.base.subscribers == []
    ensures merged.sources[0].subscribers == [] && merged.sources[1].subscribers == []
    ensures created == [0, 0, 0]
  {
    var signal1 := new Signal();
    var signal2 := new Signal();
    derived := DeriveSignals([signal1, signal2], EitherOr);
    merged := derived.source.merged;
    assert merged.sources[0] == signal1 && merged.sources[1] == signal2;
    assert merged.Sources() == {signal1, signal2};
    created := MultiObserved(derived, merged);
  }

  /** The set-up of the `coalesceSignals` test. */
  method CoalescedCreated() returns (derived: DerivedSignal<seq<Option<int>>, Option<int>>, merged: MergedSignal, created: seq<nat>)
    ensures derived.Valid() && derived.source == Merged(merged)
    ensures |merged.sources| == 2 && merged.sources[0] != merged.sources[1]
    ensures fresh(derived) && fresh(derived.base) && fresh(merged) && fresh(merged.base)
    ensures fresh(merged.sources[0]) && fresh(merged.sources[1])
    ensures merged.Sources() == {merged.sources[0], merged.sources[1]}
    ensures derived.base.subscribers == [] && merged.base.subscribers == []
    ensures merged.sources[0].subscribers == [] && merged.sources[1].subscribers == []
    ensures created == [0, 0, 0]
  {
    var signal1 := new Signal();
    var signal2 := new Signal();
    derived := CoalesceSignals([signal1, signal2]);
    merged := derived.source.merged;
    assert merged.sources[0] == signal1 && merged.sources[1] == signal2;
    assert merged.Sources() == {signal1, signal2};
    created := MultiObserved(derived, merged);
  }

  /** The first subscription to a signal derived from a merge attaches the
      derived signal to the merge and the merge to each source. */
  method MultiSubscribe<T, U>(derived: DerivedSignal<T, U>, merged: MergedSignal) returns (subscribed: seq<nat>)
    requires derived.Valid() && derived.source == Merged(merged)
    requires |merged.sources| == 2 && merged.sources[0] != merged.sources[1]
    requires derived.base.subscribers == [] && merged.base.subscribers == []
    requires merged.sources[0].subscribers == [] && merged.sources[1].subscribers == []
    modifies derived.Repr()
    ensures derived.Valid() && derived.base.subscribers == [Callback(0)]
    ensures merged.base.subscribers == [Handler(derived, 0)]
    ensures merged.sources[0].subscribers == [Handler(merged, 0)]
    ensures merged.sources[1].subscribers == [Handler(merged, 1)]
    ensures subscribed == [1, 1, 1]
  {
    ghost var detached := merged.Lists();
    assert detached == [[], []];
    assert merged.unsubscribeOriginals.None?;
    derived.Subscribe(Callback(0));
    assert merged.AttachedTo(detached);
    merged.AttachedOncePerSource(detached);
    subscribed := MultiObserved(derived, merged);
  }

  /** Emits on the sources change no count. */
  method MultiEmit<T, U>(derived: DerivedSignal<T, U>, merged: MergedSignal) returns (emitted: seq<nat>)
    requires derived.Valid() && derived.source == Merged(merged) && |merged.sources| == 2
    requires derived.base.subscribers == [Callback(0)]
    requires merged.sources[0].subscribers == [Handler(merged, 0)]
    requires merged.sources[1].subscribers == [Handler(merged, 1)]
    ensures emitted == [1, 1, 1]
  {
    var _ := merged.sources[0].Emit(10);
    var _ := merged.sources[1].Emit(10);
    emitted := MultiObserved(derived, merged);
  }

  /** The last unsubscription detaches the derived signal from the merge,
      which leaves the merge without subscribers and so detaches it from
      each source. */
  method MultiUnsubscribe<T, U>(derived: DerivedSignal<T, U>, merged: MergedSignal) returns (unsubscribed: seq<nat>)
    requires derived.Valid() && derived.source == Merged(merged)
    requires |merged.sources| == 2 && merged.sources[0] != merged.sources[1]
    requires derived.base.subscribers == [Callback(0)]
    requires merged.base.subscribers == [Handler(derived, 0)]
    requires merged.sources[0].subscribers == [Handler(merged, 0)]
    requires merged.sources[1].subscribers == [Handler(merged, 1)]
    modifies derived.Repr()
    ensures derived.Valid() && derived.base.subscribers == [] && merged.base.subscribers == []
    ensures unsubscribed == [0, 0, 0]
  {
    ghost var attached := merged.Lists();
    assert attached == [[Handler(merged, 0)], [Handler(merged, 1)]];
    assert merged.unsubscribeOriginals.Some?;
    derived.Unsubscribe(Callback(0));
    assert merged.base.subscribers == Remove([Handler(derived, 0)], Handler(derived, 0)) == [];
    assert merged.DetachedFrom(attached);
    merged.DetachedOncePerSource(attached);
    unsubscribed := MultiObserved(derived, merged);
  }

  /** The `deriveSignals` count test: the derived signal and both sources
      read 0, then 1 after subscribing and after emits, then 0. */
  method DeriveMultiCounts() returns (created: seq<nat>, subscribed: seq<nat>, emitted: seq<nat>, unsubscribed: seq<nat>)
    ensures created == [0, 0, 0]
    ensures subscribed == [1, 1, 1]
    ensures emitted == [1, 1, 1]
    ensures unsubscribed == [0, 0, 0]
  {
    var derived, merged;
    derived, merged, created := DeriveMultiCreated();
    subscribed := MultiSubscribe(derived, merged);
    emitted := MultiEmit(derived, merged);
    unsubscribed := MultiUnsubscribe(derived, merged);
  }

  /** The `coalesceSignals` count test, with the same readings. */
  method CoalescedCounts() returns (created: seq<nat>, subscribed: seq<nat>, emitted: seq<nat>, unsubscribed: seq<nat>)
    ensures created == [0, 0, 0]
    ensures subscribed == [1, 1, 1]
    ensures emitted == [1, 1, 1]
    ensures unsubscribed == [0, 0, 0]
  {
    var derived, merged;
    derived, merged, created := CoalescedCreated();
    subscribed := MultiSubscribe(derived, merged);
    emitted := MultiEmit(derived, merged);
    unsubscribed := MultiUnsubscribe(derived, merged);
  }
}
