/** Model of the combinators of src/lib/composition.ts: `mergeSignals`,
    `deriveSignal`, `deriveSignals` and `coalesceSignals`. A composite owns a
    private base signal that its subscribers join, and it is attached to its
    upstream signals exactly while that base signal has a subscriber. */
module Composition {
  import opened Signals

  /** A slot of a change vector: `None` is JavaScript's `undefined`. */
  datatype Option<T> = None | Some(value: T)

  /** The change vector merge emits when source `i` of `n` emits `v`: an
      array of `n` undefined slots whose slot `i` then receives `v`. */
  function Changes<T>(n: nat, i: nat, v: T): (changes: seq<Option<T>>)
    requires i < n
    ensures |changes| == n
    ensures changes[i] == Some(v)
    ensures forall j :: 0 <= j < n && j != i ==> changes[j] == None
  {
    seq(n, _ => None)[i := Some(v)]
  }

  /** `changes.find((x) => x !== undefined)`: the first populated slot. */
  function FirstDefined<T>(changes: seq<Option<T>>): (found: Option<T>)
    ensures found.None? <==> forall k :: 0 <= k < |changes| ==> changes[k].None?
  {
    if changes == [] then None
    else if changes[0].Some? then changes[0]
    else FirstDefined(changes[1..])
  }

  /** `find` returns the value of a populated slot when every slot before it is undefined. */
  lemma {:induction false} FirstDefinedFindsSlot<T>(changes: seq<Option<T>>, i: nat, v: T)
    requires i < |changes| && changes[i] == Some(v)
    requires forall j :: 0 <= j < i ==> changes[j] == None
    ensures FirstDefined(changes) == Some(v)
  {
    if i > 0 {
      FirstDefinedFindsSlot(changes[1..], i - 1, v);
    }
  }

  /** Coalescing a change vector yields the raw value of the source that
      emitted, unwrapped; so every change vector carries a value. */
  lemma CoalesceUnwraps<T>(n: nat, i: nat, v: T)
    requires i < n
    ensures FirstDefined(Changes(n, i, v)) == Some(v)
  {
    FirstDefinedFindsSlot(Changes(n, i, v), i, v);
  }

  /** A change vector determines which source emitted and what it emitted. */
  lemma ChangesDetermineEmission<T>(n: nat, i: nat, v: T, j: nat, w: T)
    requires i < n && j < n
    requires Changes(n, i, v) == Changes(n, j, w)
    ensures i == j && v == w
  {
  }

  /** The subscribers `Handler(owner, i)` for the slots `i < n`. */
  ghost function Owned(owner: object, n: nat): set<Subscriber> {
    set i | 0 <= i < n :: Handler(owner, i)
  }

  lemma OwnedNext(owner: object, k: nat)
    ensures Owned(owner, k + 1) == Owned(owner, k) + {Handler(owner, k)}
  {
  }

  /** What attaching the first `k` sources appends to the list of `signal`:
      the handler of each of those slots whose source is `signal`, in slot order. */
  ghost function Attachments(sources: seq<Signal>, owner: object, signal: Signal, k: nat): seq<Subscriber>
    requires k <= |sources|
  {
    if k == 0 then []
    else Attachments(sources, owner, signal, k - 1) + (if sources[k - 1] == signal then [Handler(owner, k - 1)] else [])
  }

  /** The handler of slot `m` is among the attachments of `signal` exactly
      when slot `m` is one of the first `k` and its source is `signal`. */
  lemma {:induction false} AttachmentsHandler(sources: seq<Signal>, owner: object, signal: Signal, k: nat, m: nat)
    requires k <= |sources|
    ensures Handler(owner, m) in Attachments(sources, owner, signal, k) <==> m < k && sources[m] == signal
  {
    if k > 0 {
      AttachmentsHandler(sources, owner, signal, k - 1, m);
    }
  }

  /** With pairwise distinct sources, attaching appends exactly one handler
      to each source, so each source's count rises by one. */
  lemma {:induction false} AttachmentsDistinct(sources: seq<Signal>, owner: object, j: nat, k: nat)
    requires j < |sources| && k <= |sources|
    requires forall a, b :: 0 <= a < b < |sources| ==> sources[a] != sources[b]
    ensures Attachments(sources, owner, sources[j], k) == if j < k then [Handler(owner, j)] else []
  {
    if k > 0 {
      AttachmentsDistinct(sources, owner, j, k - 1);
    }
  }

  /** Leaving out every slot's handler removes all the attachments. */
  lemma {:induction false} WithoutAttachments(sources: seq<Signal>, owner: object, signal: Signal, k: nat)
    requires k <= |sources|
    ensures Without(Attachments(sources, owner, signal, k), Owned(owner, |sources|)) == []
  {
    if k > 0 {
      WithoutAttachments(sources, owner, signal, k - 1);
      var tail := if sources[k - 1] == signal then [Handler(owner, k - 1)] else [];
      assert Handler(owner, k - 1) in Owned(owner, |sources|);
      WithoutConcat(Attachments(sources, owner, signal, k - 1), tail, Owned(owner, |sources|));
    }
  }

  /** Detaching after an attach restores a source's list, provided it held no
      handler of the composite before. */
  lemma DetachUndoesAttach(sources: seq<Signal>, owner: object, signal: Signal, before: seq<Subscriber>)
    requires forall y :: y in before ==> y !in Owned(owner, |sources|)
    ensures Without(before + Attachments(sources, owner, signal, |sources|), Owned(owner, |sources|)) == before
  {
    WithoutConcat(before, Attachments(sources, owner, signal, |sources|), Owned(owner, |sources|));
    WithoutAbsent(before, Owned(owner, |sources|));
    WithoutAttachments(sources, owner, signal, |sources|);
  }

  /** A list holding the handler of slot `j` and no other slot's loses
      exactly that handler when every slot's handler is left out. */
  lemma WithoutOneOwned(before: seq<Subscriber>, owner: object, n: nat, j: nat)
    requires j < n && NoDuplicates(before) && Handler(owner, j) in before
    requires forall k :: 0 <= k < n && k != j ==> Handler(owner, k) !in before
    ensures Without(before, Owned(owner, n)) == Remove(before, Handler(owner, j))
    ensures |Without(before, Owned(owner, n))| == |before| - 1
  {
    WithoutIrrelevant(before, {Handler(owner, j)}, Owned(owner, n));
    assert {Handler(owner, j)} + Owned(owner, n) == Owned(owner, n);
    RemoveIsWithout(before, Handler(owner, j));
  }

  /** The signal `mergeSignals(sources)` returns. */
  class MergedSignal {
    const sources: seq<Signal>
    const base: Signal
    /** `unsubscribeOriginals`: null (`None`) while detached. */
    var unsubscribeOriginals: Option<seq<UnsubscribeHandle>>

    ghost function Sources(): set<object> {
      set j | 0 <= j < |sources| :: sources[j]
    }

    ghost function Repr(): set<object> {
      {this, base} + Sources()
    }

    /** The handles `signals$.map(...)` collects: one per source, in input order. */
    ghost function Handles(k: nat): seq<UnsubscribeHandle>
      requires k <= |sources|
    {
      if k == 0 then [] else Handles(k - 1) + [UnsubscribeHandle(sources[k - 1], Handler(this, k - 1))]
    }

    lemma {:induction false} HandlesAt(n: nat, k: nat)
      requires k < n <= |sources|
      ensures |Handles(n)| == n && Handles(n)[k] == UnsubscribeHandle(sources[k], Handler(this, k))
    {
      if k < n - 1 {
        HandlesAt(n - 1, k);
      } else {
        HandlesLength(n - 1);
      }
    }

    lemma HandlesAll(n: nat)
      requires n <= |sources|
      ensures |Handles(n)| == n
      ensures forall k :: 0 <= k < n ==> Handles(n)[k] == UnsubscribeHandle(sources[k], Handler(this, k))
    {
      HandlesLength(n);
      forall k | 0 <= k < n ensures Handles(n)[k] == UnsubscribeHandle(sources[k], Handler(this, k)) {
        HandlesAt(n, k);
      }
    }

    lemma {:induction false} HandlesLength(n: nat)
      requires n <= |sources|
      ensures |Handles(n)| == n
    {
      if n > 0 {
        HandlesLength(n - 1);
      }
    }

    ghost predicate AreHandles(originals: seq<UnsubscribeHandle>) {
      originals == Handles(|sources|)
    }

    /** Each slot's handler sits on that slot's source and on no other source. */
    ghost predicate HandlersAttached()
      reads Sources()
    {
      && (forall k :: 0 <= k < |sources| ==> Handler(this, k) in sources[k].subscribers)
      && (forall j, k :: 0 <= j < |sources| && 0 <= k < |sources| && sources[k] != sources[j] ==>
            Handler(this, k) !in sources[j].subscribers)
    }

    /** No source holds a handler of this signal. */
    ghost predicate HandlersDetached()
      reads Sources()
    {
      forall j, k :: 0 <= j < |sources| && 0 <= k < |sources| ==> Handler(this, k) !in sources[j].subscribers
    }

    /** With pairwise distinct sources, an attach appends to each source
        exactly its own slot's handler, one subscription per source. */
    lemma AttachedOncePerSource(before: seq<seq<Subscriber>>)
      requires AttachedTo(before)
      requires forall a, b :: 0 <= a < b < |sources| ==> sources[a] != sources[b]
      ensures forall j :: 0 <= j < |sources| ==> sources[j].subscribers == before[j] + [Handler(this, j)]
    {
      forall j | 0 <= j < |sources| ensures sources[j].subscribers == before[j] + [Handler(this, j)] {
        AttachmentsDistinct(sources, this, j, |sources|);
      }
    }

    /** With pairwise distinct sources, a detach from lists where each source
        held exactly its own slot's handler takes that one handler out of each
        source, one subscription fewer per source. */
    lemma DetachedOncePerSource(before: seq<seq<Subscriber>>)
      requires DetachedFrom(before)
      requires forall a, b :: 0 <= a < b < |sources| ==> sources[a] != sources[b]
      requires forall j :: 0 <= j < |sources| ==> NoDuplicates(before[j]) && Handler(this, j) in before[j]
      requires forall j, k :: 0 <= j < |sources| && 0 <= k < |sources| && k != j ==> Handler(this, k) !in before[j]
      ensures forall j :: 0 <= j < |sources| ==>
        sources[j].subscribers == Remove(before[j], Handler(this, j)) && |sources[j].subscribers| == |before[j]| - 1
    {
      forall j | 0 <= j < |sources|
        ensures sources[j].subscribers == Remove(before[j], Handler(this, j)) && |sources[j].subscribers| == |before[j]| - 1
      {
        WithoutOneOwned(before[j], this, |sources|, j);
      }
    }

    /** Attached (handles non-null) exactly while the base signal has a
        subscriber; while attached each slot's handler sits on that slot's
        source and on no other, and while detached no source holds any of them. */
    ghost predicate Valid()
      reads Repr()
    {
      && base.Valid()
      && base !in Sources()
      && (forall j :: 0 <= j < |sources| ==> sources[j].Valid())
      && (unsubscribeOriginals.Some? <==> |base.subscribers| > 0)
      && (unsubscribeOriginals.Some? ==> AreHandles(unsubscribeOriginals.value) && HandlersAttached())
      && (unsubscribeOriginals.None? ==> HandlersDetached())
    }

    /** The subscriber list of each source, in slot order. */
    ghost function Lists(): (lists: seq<seq<Subscriber>>)
      reads Sources()
      ensures |lists| == |sources|
      ensures forall j :: 0 <= j < |sources| ==> lists[j] == sources[j].subscribers
    {
      seq(|sources|, j requires 0 <= j < |sources| reads Sources() => sources[j].subscribers)
    }

    /** Every source's list is its list in `before` with this signal's
        handlers for its slots appended in slot order. */
    ghost predicate AttachedTo(before: seq<seq<Subscriber>>)
      reads Sources()
    {
      && |before| == |sources|
      && forall j :: 0 <= j < |sources| ==>
           sources[j].subscribers == before[j] + Attachments(sources, this, sources[j], |sources|)
    }

    /** As `AttachedTo`, part way: only the handlers of the first `k` slots
        have been appended. */
    ghost predicate AttachedUpTo(before: seq<seq<Subscriber>>, k: nat)
      reads Sources()
      requires k <= |sources|
    {
      && |before| == |sources|
      && forall j :: 0 <= j < |sources| ==>
           sources[j].subscribers == before[j] + Attachments(sources, this, sources[j], k)
    }

    /** Every source's list is its list in `before` without this signal's
        handlers, the others kept in order. */
    ghost predicate DetachedFrom(before: seq<seq<Subscriber>>)
      reads Sources()
    {
      && |before| == |sources|
      && forall j :: 0 <= j < |sources| ==> sources[j].subscribers == Without(before[j], Owned(this, |sources|))
    }

    constructor (sources: seq<Signal>)
      requires forall j :: 0 <= j < |sources| ==> sources[j].Valid()
      ensures Valid() && fresh(base)
      ensures this.sources == sources && base.subscribers == [] && unsubscribeOriginals == None
    {
      this.sources := sources;
      base := new Signal();
      unsubscribeOriginals := None;
    }

    /** The `nOfSubscriptions` getter: the base signal's count, non-zero
        exactly while attached upstream. */
    function NOfSubscriptions(): (n: nat)
      reads Repr()
      requires Valid()
      ensures n == |base.subscribers|
      ensures n > 0 <==> unsubscribeOriginals.Some?
    {
      base.NOfSubscriptions()
    }

    /** `subscribe(s)`: join the base signal; the first subscription also
        subscribes one handler to every source, in input order. */
    method Subscribe(s: Subscriber)
      requires Valid()
      modifies Repr()
      ensures Valid()
      ensures base.subscribers == Add(old(base.subscribers), s)
      ensures unsubscribeOriginals.Some?
      ensures if old(unsubscribeOriginals).None? then AttachedTo(old(Lists())) else Lists() == old(Lists())
    {
      ghost var upstream := Lists();
      var _ := base.Subscribe(s);
      assert Lists() == upstream;
      if unsubscribeOriginals.None? {
        Attach();
      } else {
        assert HandlersAttached();
      }
    }

    /** The first subscription's upstream work: subscribe a handler to every
        source and keep the handles. */
    method Attach()
      requires base.Valid() && base !in Sources() && |base.subscribers| > 0
      requires forall j :: 0 <= j < |sources| ==> sources[j].Valid()
      requires unsubscribeOriginals.None? && HandlersDetached()
      modifies this, Sources()
      ensures Valid() && unsubscribeOriginals.Some?
      ensures AttachedTo(old(Lists()))
    {
      var originals := SubscribeOriginals();
      unsubscribeOriginals := Some(originals);
      AttachedAfter();
    }

    /** `signals$.map((signal$, i) => signal$.subscribe(makeSubscriber(i)))`. */
    method SubscribeOriginals() returns (originals: seq<UnsubscribeHandle>)
      requires forall j :: 0 <= j < |sources| ==> sources[j].Valid()
      requires HandlersDetached()
      modifies Sources()
      ensures forall j :: 0 <= j < |sources| ==> sources[j].Valid()
      ensures AreHandles(originals)
      ensures AttachedTo(old(Lists()))
    {
      ghost var start := Lists();
      originals := [];
      for i := 0 to |sources|
        invariant originals == Handles(i)
        invariant forall j :: 0 <= j < |sources| ==> sources[j].Valid()
        invariant AttachedUpTo(start, i)
      {
        var unsubscribe := SubscribeSlot(i, start);
        originals := originals + [unsubscribe];
      }
    }

    /** `signal$.subscribe(makeSubscriber(i))` for the `i`-th source, after
        the first `i` slots have been attached to lists that held no handler
        of this signal. */
    method SubscribeSlot(i: nat, ghost start: seq<seq<Subscriber>>) returns (unsubscribe: UnsubscribeHandle)
      requires i < |sources| && forall j :: 0 <= j < |sources| ==> sources[j].Valid()
      requires AttachedUpTo(start, i)
      requires forall k :: 0 <= k < |sources| ==> Handler(this, i) !in start[k]
      modifies sources[i]
      ensures forall j :: 0 <= j < |sources| ==> sources[j].Valid()
      ensures AttachedUpTo(start, i + 1)
      ensures unsubscribe == UnsubscribeHandle(sources[i], Handler(this, i))
    {
      AttachmentsHandler(sources, this, sources[i], i, i);
      unsubscribe := sources[i].Subscribe(Handler(this, i));
    }

    /** Appending every slot's attachments to lists that held no handler of
        this signal puts each handler on its own slot's source and no other. */
    twostate lemma AttachedAfter()
      requires old(HandlersDetached())
      requires AttachedTo(old(Lists()))
      ensures HandlersAttached()
    {
      forall j, k | 0 <= j < |sources| && 0 <= k < |sources| && sources[k] != sources[j]
        ensures Handler(this, k) !in sources[j].subscribers
      {
        AttachmentsHandler(sources, this, sources[j], |sources|, k);
      }
      forall k | 0 <= k < |sources| ensures Handler(this, k) in sources[k].subscribers {
        AttachmentsHandler(sources, this, sources[k], |sources|, k);
      }
    }

    /** Calling the handle `subscribe(s)` returned: leave the base signal;
        when that leaves it empty, call every upstream handle and forget them. */
    method Unsubscribe(s: Subscriber)
      requires Valid()
      modifies Repr()
      ensures Valid()
      ensures base.subscribers == Remove(old(base.subscribers), s)
      ensures if old(unsubscribeOriginals).Some? && base.subscribers == [] then DetachedFrom(old(Lists())) else Lists() == old(Lists())
    {
      base.Unsubscribe(s);
      if unsubscribeOriginals.Some? && base.NOfSubscriptions() == 0 {
        Detach();
      }
    }

    /** The last unsubscription's upstream work: call every handle and forget them. */
    method Detach()
      requires base.Valid() && base !in Sources() && base.subscribers == []
      requires forall j :: 0 <= j < |sources| ==> sources[j].Valid()
      requires unsubscribeOriginals.Some? && AreHandles(unsubscribeOriginals.value) && HandlersAttached()
      modifies this, Sources()
      ensures Valid() && unsubscribeOriginals.None?
      ensures DetachedFrom(old(Lists()))
    {
      CallOriginals(unsubscribeOriginals.value);
      unsubscribeOriginals := None;
    }

    /** `unsubscribeOriginals.forEach((unsub) => unsub())`. */
    method CallOriginals(originals: seq<UnsubscribeHandle>)
      requires forall j :: 0 <= j < |sources| ==> sources[j].Valid()
      requires AreHandles(originals) && HandlersAttached()
      modifies Sources()
      ensures forall j :: 0 <= j < |sources| ==> sources[j].Valid()
      ensures DetachedFrom(old(Lists())) && HandlersDetached()
    {
      HandlesAll(|sources|);
      assert Owned(this, 0) == {};
      forall j | 0 <= j < |sources| {
        WithoutAbsent(sources[j].subscribers, {});
      }
      for k := 0 to |originals|
        invariant forall j :: 0 <= j < |sources| ==> sources[j].Valid()
        invariant forall j :: 0 <= j < |sources| ==>
          sources[j].subscribers == Without(old(sources[j].subscribers), Owned(this, k))
      {
        ghost var before := sources[k].subscribers;
        originals[k].Call();
        OwnedNext(this, k);
        forall j | 0 <= j < |sources|
          ensures sources[j].subscribers == Without(old(sources[j].subscribers), Owned(this, k + 1))
        {
          if sources[j] == sources[k] {
            RemoveIsWithout(before, Handler(this, k));
            WithoutTwice(old(sources[j].subscribers), Owned(this, k), {Handler(this, k)});
          } else {
            WithoutIrrelevant(old(sources[j].subscribers), Owned(this, k), {Handler(this, k)});
          }
        }
      }
      DetachedAfter(old(Lists()));
    }

    /** Lists with every slot's handler left out hold no handler of this signal. */
    lemma DetachedAfter(before: seq<seq<Subscriber>>)
      requires DetachedFrom(before)
      ensures HandlersDetached()
    {
      forall j, k | 0 <= j < |sources| && 0 <= k < |sources| ensures Handler(this, k) !in sources[j].subscribers {
        WithoutMembers(before[j], Owned(this, |sources|));
      }
    }

    /** The handler of slot `i` receiving `v`: build the change vector and
        emit it to the base signal's subscribers. */
    method Deliver<T>(i: nat, v: T) returns (log: seq<(Subscriber, seq<Option<T>>)>)
      requires i < |sources|
      ensures log == Broadcast(base.subscribers, Changes(|sources|, i, v))
    {
      var changes := Changes(|sources|, i, v);
      log := base.Emit(changes);
    }
  }

  /** A signal that `deriveSignal` can observe: one made by `makeSignal`, or
      one returned by `mergeSignals` (as `deriveSignals` passes it). */
  datatype ReadonlySignal = Plain(signal: Signal) | Merged(merged: MergedSignal) {
    ghost function Repr(): set<object> {
      match this
      case Plain(s) => {s}
      case Merged(m) => m.Repr()
    }

    ghost predicate Valid()
      reads Repr()
    {
      match this
      case Plain(s) => s.Valid()
      case Merged(m) => m.Valid()
    }

    /** The signal whose subscriber list `subscribe` on this signal joins. */
    function Head(): Signal {
      match this
      case Plain(s) => s
      case Merged(m) => m.base
    }

    ghost function Subscribers(): seq<Subscriber>
      reads Head()
    {
      Head().subscribers
    }

    lemma ValidNoDuplicates()
      requires Valid()
      ensures NoDuplicates(Subscribers())
    {
    }

    method Subscribe(s: Subscriber) returns (unsubscribe: ReadonlyHandle)
      requires Valid()
      modifies Repr()
      ensures Valid()
      ensures Subscribers() == Add(old(Subscribers()), s)
      ensures Merged? ==>
        if old(merged.unsubscribeOriginals).None? then merged.AttachedTo(old(merged.Lists())) else merged.Lists() == old(merged.Lists())
      ensures unsubscribe == ReadonlyHandle(this, s)
    {
      match this {
        case Plain(sig) =>
          var _ := sig.Subscribe(s);
        case Merged(m) =>
          m.Subscribe(s);
      }
      unsubscribe := ReadonlyHandle(this, s);
    }

    method Unsubscribe(s: Subscriber)
      requires Valid()
      modifies Repr()
      ensures Valid()
      ensures Subscribers() == Remove(old(Subscribers()), s)
      ensures Merged? ==>
        if old(merged.unsubscribeOriginals).Some? && merged.base.subscribers == []
        then merged.DetachedFrom(old(merged.Lists())) else merged.Lists() == old(merged.Lists())
    {
      match this {
        case Plain(sig) =>
          sig.Unsubscribe(s);
        case Merged(m) =>
          m.Unsubscribe(s);
      }
    }
  }

  /** The function `subscribe` on a `ReadonlySignal` returns. */
  datatype ReadonlyHandle = ReadonlyHandle(signal: ReadonlySignal, subscriber: Subscriber) {
    method Call()
      requires signal.Valid()
      modifies signal.Repr()
      ensures signal.Valid()
      ensures signal.Subscribers() == Remove(old(signal.Subscribers()), subscriber)
      ensures signal.Merged? ==>
        if old(signal.merged.unsubscribeOriginals).Some? && signal.merged.base.subscribers == []
        then signal.merged.DetachedFrom(old(signal.merged.Lists())) else signal.merged.Lists() == old(signal.merged.Lists())
    {
      signal.Unsubscribe(subscriber);
    }
  }

  /** The signal `deriveSignal(source, transform)` returns; `Handler(this, 0)`
      is its `emitTransformed` closure. */
  class DerivedSignal<T, U> {
    const source: ReadonlySignal
    const transform: T -> U
    const base: Signal
    /** `unsubscribeOriginal`: null (`None`) while detached. */
    var unsubscribeOriginal: Option<ReadonlyHandle>

    ghost function Repr(): set<object> {
      {this, base} + source.Repr()
    }

    /** Attached (handle non-null) exactly while the base signal has a
        subscriber, and then the source holds `emitTransformed`; while
        detached the source holds no closure of this signal. */
    ghost predicate Valid()
      reads Repr()
    {
      && base.Valid()
      && source.Valid()
      && base !in source.Repr()
      && this !in source.Repr()
      && (unsubscribeOriginal.Some? <==> |base.subscribers| > 0)
      && (unsubscribeOriginal.Some? ==> unsubscribeOriginal.value == ReadonlyHandle(source, Handler(this, 0)))
      && (Handler(this, 0) in source.Subscribers() <==> unsubscribeOriginal.Some?)
    }

    constructor (source: ReadonlySignal, transform: T -> U)
      requires source.Valid()
      ensures Valid() && fresh(base)
      ensures this.source == source && this.transform == transform
      ensures base.subscribers == [] && unsubscribeOriginal == None
    {
      this.source := source;
      this.transform := transform;
      base := new Signal();
      unsubscribeOriginal := None;
    }

    /** The `nOfSubscriptions` getter: the base signal's count, non-zero
        exactly while attached upstream. */
    function NOfSubscriptions(): (n: nat)
      reads Repr()
      requires Valid()
      ensures n == |base.subscribers|
      ensures n > 0 <==> unsubscribeOriginal.Some?
    {
      base.NOfSubscriptions()
    }

    /** `subscribe(s)`: join the base signal; the first subscription also
        subscribes `emitTransformed` to the source. */
    method Subscribe(s: Subscriber)
      requires Valid()
      modifies Repr()
      ensures Valid()
      ensures base.subscribers == Add(old(base.subscribers), s)
      ensures unsubscribeOriginal.Some?
      ensures source.Subscribers() ==
        if old(unsubscribeOriginal).None? then old(source.Subscribers()) + [Handler(this, 0)]
        else old(source.Subscribers())
      ensures source.Merged? ==>
        if old(source.merged.unsubscribeOriginals).None? then source.merged.AttachedTo(old(source.merged.Lists()))
        else source.merged.Lists() == old(source.merged.Lists())
    {
      ghost var upstream := source.Subscribers();
      var _ := base.Subscribe(s);
      assert source.Subscribers() == upstream;
      if unsubscribeOriginal.None? {
        Attach();
      } else {
        assert source.Valid();
        assert source.Merged? ==> source.merged.Lists() == old(source.merged.Lists());
      }
    }

    /** The first subscription's upstream work: subscribe `emitTransformed`
        to the source and keep the handle. */
    method Attach()
      requires base.Valid() && source.Valid() && base !in source.Repr() && this !in source.Repr()
      requires |base.subscribers| > 0 && unsubscribeOriginal.None?
      requires Handler(this, 0) !in source.Subscribers()
      modifies this, source.Repr()
      ensures Valid() && unsubscribeOriginal.Some?
      ensures source.Subscribers() == old(source.Subscribers()) + [Handler(this, 0)]
      ensures source.Merged? ==>
        if old(source.merged.unsubscribeOriginals).None? then source.merged.AttachedTo(old(source.merged.Lists()))
        else source.merged.Lists() == old(source.merged.Lists())
    {
      var unsubscribe := source.Subscribe(Handler(this, 0));
      unsubscribeOriginal := Some(unsubscribe);
    }

    /** Calling the handle `subscribe(s)` returned: leave the base signal;
        when that leaves it empty, unsubscribe `emitTransformed` from the source. */
    method Unsubscribe(s: Subscriber)
      requires Valid()
      modifies Repr()
      ensures Valid()
      ensures base.subscribers == Remove(old(base.subscribers), s)
      ensures source.Subscribers() ==
        if old(unsubscribeOriginal).Some? && base.subscribers == []
        then Remove(old(source.Subscribers()), Handler(this, 0))
        else old(source.Subscribers())
      ensures source.Merged? ==>
        if old(source.merged.unsubscribeOriginals).Some? && source.merged.base.subscribers == []
        then source.merged.DetachedFrom(old(source.merged.Lists())) else source.merged.Lists() == old(source.merged.Lists())
    {
      ghost var upstream := source.Subscribers();
      base.Unsubscribe(s);
      assert source.Subscribers() == upstream;
      if unsubscribeOriginal.Some? && base.NOfSubscriptions() == 0 {
        Detach();
      } else {
        assert source.Valid();
        assert source.Merged? ==> source.merged.Lists() == old(source.merged.Lists());
      }
    }

    /** The last unsubscription's upstream work: call the source's handle and forget it. */
    method Detach()
      requires base.Valid() && source.Valid() && base !in source.Repr() && this !in source.Repr()
      requires base.subscribers == []
      requires unsubscribeOriginal == Some(ReadonlyHandle(source, Handler(this, 0)))
      modifies this, source.Repr()
      ensures Valid() && unsubscribeOriginal.None?
      ensures source.Subscribers() == Remove(old(source.Subscribers()), Handler(this, 0))
      ensures source.Merged? ==>
        if old(source.merged.unsubscribeOriginals).Some? && source.merged.base.subscribers == []
        then source.merged.DetachedFrom(old(source.merged.Lists())) else source.merged.Lists() == old(source.merged.Lists())
    {
      source.ValidNoDuplicates();
      RemoveIsWithout(source.Subscribers(), Handler(this, 0));
      var unsubscribe := unsubscribeOriginal.value;
      unsubscribeOriginal := None;
      unsubscribe.Call();
    }

    /** `emitTransformed` receiving `v`: emit `transform(v)` to the base
        signal's subscribers. */
    method Deliver(v: T) returns (log: seq<(Subscriber, U)>)
      ensures log == Broadcast(base.subscribers, transform(v))
    {
      log := base.Emit(transform(v));
    }
  }

  /** `deriveSignals(sources, transform)`: `deriveSignal` over `mergeSignals(sources)`. */
  method DeriveSignals<T, U>(sources: seq<Signal>, transform: seq<Option<T>> -> U)
    returns (derived: DerivedSignal<seq<Option<T>>, U>)
    requires forall j :: 0 <= j < |sources| ==> sources[j].Valid()
    ensures derived.Valid() && fresh(derived) && fresh(derived.base)
    ensures derived.source.Merged? && fresh(derived.source.merged) && fresh(derived.source.merged.base)
    ensures derived.source.merged.sources == sources && derived.transform == transform
    ensures derived.base.subscribers == [] && derived.source.merged.base.subscribers == []
  {
    var merged := new MergedSignal(sources);
    derived := new DerivedSignal(Merged(merged), transform);
  }

  /** `coalesceSignals(sources)`: derive with the first populated slot. */
  method CoalesceSignals<T>(sources: seq<Signal>) returns (coalesced: DerivedSignal<seq<Option<T>>, Option<T>>)
    requires forall j :: 0 <= j < |sources| ==> sources[j].Valid()
    ensures coalesced.Valid() && fresh(coalesced) && fresh(coalesced.base)
    ensures coalesced.source.Merged? && fresh(coalesced.source.merged) && fresh(coalesced.source.merged.base)
    ensures coalesced.source.merged.sources == sources
    ensures forall n: nat, i: nat, v: T :: i < n ==> coalesced.transform(Changes(n, i, v)) == Some(v)
    ensures coalesced.base.subscribers == [] && coalesced.source.merged.base.subscribers == []
  {
    coalesced := DeriveSignals(sources, FirstDefined);
    forall n: nat, i: nat, v: T | i < n ensures FirstDefined(Changes(n, i, v)) == Some(v) {
      CoalesceUnwraps(n, i, v);
    }
  }
}
