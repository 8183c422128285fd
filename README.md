# signals.js in Dafny

A model of the signal primitive of signals.js and of the combinators built on
it, with the properties the library promises proved about the model.

**Signals** (`signal.dfy`) models `makeSignal`. A `Signal` is an object whose
one field is the ordered `subscribers` array. It offers the following:

- `Subscribe` pushes a subscriber only when `indexOf` does not find it. It
  returns the handle that unsubscribes it.
- `Unsubscribe` splices out the occurrence `indexOf` finds. When there is
  none, it does nothing.
- `Emit` walks the array in order.
- `EmitFor` delivers only to a subscribed function.
- `NOfSubscriptions` is the array's length.

Subscribers are identities: JavaScript deduplicates callbacks by reference,
so the model never needs their code. `Callback(n)` is a user's function.
`Handler(owner, i)` is the closure that a composite signal `owner` makes for
its `i`-th source.

The model does not call callbacks. `Emit` and `EmitFor` return the delivery
log, the sequence of (subscriber, value) calls they make. `Add` and `Remove`
say what subscribing and unsubscribing do to the array, and `Broadcast` says
what an emit delivers. `Without` (removal of a set, keeping order) is an
independent reference definition that `Remove` is proved against.

**Composition** (`composition.dfy`) models `mergeSignals`, `deriveSignal`,
`deriveSignals` and `coalesceSignals`.

A `MergedSignal` and a `DerivedSignal` each own a private base signal and a
nullable store of upstream unsubscribe handles. Their invariant `Valid` is the
two-state machine of the source:

- Attached (handles present) exactly while the base signal has a subscriber.
- While attached, the handles are the ones `subscribe` returned for each
  source in input order, and each slot's closure sits on that slot's source
  and on no other.
- While detached, no upstream signal holds one of the composite's closures.

`Subscribe` and `Unsubscribe` give each source's new subscriber list in terms
of its old one:

- The first subscription appends exactly the composite's handlers (`AttachedTo`).
- The last unsubscription takes them out again (`DetachedFrom`).
- Every other call leaves the upstream lists as they were.

Merge sources may be the same signal twice, as in JavaScript. The attach and
detach results are stated per source object.

`Changes` is merge's change vector, with `None` for JavaScript's `undefined`.
`FirstDefined` is coalesce's `find`. `Deliver` is what a composite's closure
does when its source calls it.

**Scenarios** (`scenarios.dfy`) replays the subscription-count tests for
`mergeSignals`, `deriveSignal`, `deriveSignals` and `coalesceSignals` against
the model, one stage (create, subscribe, emit, unsubscribe) at a time.

## Model

| member | source | states |
|---|---|---|
| `Signals.IndexOf` | src/lib/index.ts:67 | `indexOf` gives -1 exactly when the subscriber is absent, and otherwise the position of its first occurrence |
| `Signals.Add` | src/lib/index.ts:72-76 | subscribe leaves a list that already holds the subscriber unchanged; otherwise it appends the subscriber at the end, so the count rises by one; it keeps the list free of duplicates |
| `Signals.Remove` | src/lib/index.ts:66-71 | unsubscribing an absent subscriber is a no-op; otherwise the count falls by one and nothing new appears |
| `Signals.RemoveSplices` | src/lib/index.ts:67-69 | the removed list is exactly `splice(indexOf(x), 1)` |
| `Signals.RemoveIsWithout` | src/lib/index.ts:66-71 | on a list without duplicates, unsubscribe removes exactly that subscriber, keeps every other one in its order, and keeps the list duplicate-free |
| `Signals.RemoveIdempotent` | src/lib/index.ts:66-71 | calling an unsubscribe handle twice, or a second handle for the same subscriber, changes nothing more |
| `Signals.AddIdempotent` | src/lib/index.ts:72-76 | subscribing the same function again changes nothing |
| `Signals.RemoveUndoesAdd` | src/lib/index.ts:66-79 | unsubscribing right after subscribing a new function restores the list |
| `Signals.CountIsDistinct` | src/lib/index.ts:85-87 | on a duplicate-free list the length is the number of distinct subscribed functions |
| `Signals.Broadcast` | src/lib/index.ts:55-59 | an emit makes as many deliveries as there are subscribers, every one carrying the emitted value |
| `Signals.BroadcastAt` | src/lib/index.ts:55-59 | emit makes one delivery per subscriber, in array order, each carrying the emitted value |
| `Signals.BroadcastReachesOnce` | src/lib/index.ts:55-59 | each current subscriber receives the value exactly once, and no one else receives anything |
| `Signals.UnsubscribedMissesLaterEmits` | src/lib/index.ts:55-71 | after an unsubscribe, emits no longer reach that subscriber, and every other subscriber receives exactly what it did before |
| `Signals.UnsubscribeHandle.Call` | src/lib/index.ts:78 | the returned closure unsubscribes its subscriber from its own signal |
| `Signals.Signal.constructor` | src/lib/index.ts:53-54 | a new signal has no subscribers |
| `Signals.Signal.NOfSubscriptions` | src/lib/index.ts:85-87 | the getter counts the distinct subscribed functions |
| `Signals.Signal.Subscribe` | src/lib/index.ts:72-79 | the array becomes `Add(old, s)`, stays duplicate-free, and the handle unsubscribes `s` from this signal |
| `Signals.Signal.Unsubscribe` | src/lib/index.ts:66-71 | the array becomes `Remove(old, s)` and stays duplicate-free |
| `Signals.Signal.Emit` | src/lib/index.ts:55-59 | the loop calls the subscribers with the value in array order, and the array does not change |
| `Signals.Signal.EmitFor` | src/lib/index.ts:60-65 | delivers the value to the subscriber alone if it is subscribed and to no one otherwise, which is emit's delivery to that subscriber |
| `Composition.Changes` | src/lib/composition.ts:25-26 | the change vector has one slot per source; the emitting slot holds the value and every other slot is undefined |
| `Composition.ChangesDetermineEmission` | src/lib/composition.ts:24-28 | a change vector tells which source emitted and what it emitted |
| `Composition.FirstDefined` | src/lib/composition.ts:140 | `find` comes back undefined exactly when every slot of the change vector is undefined |
| `Composition.FirstDefinedFindsSlot` | src/lib/composition.ts:140 | `find` returns the first populated slot |
| `Composition.CoalesceUnwraps` | src/lib/composition.ts:140 | coalescing a change vector yields the emitting source's raw value, so every vector carries a value |
| `Composition.AttachmentsHandler` | src/lib/composition.ts:43 | after attaching, a source holds the handler of slot `m` exactly when `m` is one of its slots |
| `Composition.AttachmentsDistinct` | src/lib/composition.ts:43 | with pairwise distinct sources, attaching appends one handler to each source |
| `Composition.DetachUndoesAttach` | src/lib/composition.ts:31 | calling every handle after an attach restores each source's earlier list |
| `Composition.WithoutOneOwned` | src/lib/composition.ts:31 | a list holding its own slot's handler and no other slot's loses exactly that one handler when the merge's handlers are taken out |
| `Composition.MergedSignal.Valid` | src/lib/composition.ts:29-42 | the merge's state machine: handles stored exactly while the base signal has a subscriber; then each slot's handler sits on its own source and on no other; while detached no source holds any |
| `Composition.MergedSignal.AttachedOncePerSource` | src/lib/composition.ts:42-43 | with distinct sources, the first subscription raises each source's count by exactly one, with its own slot's handler |
| `Composition.MergedSignal.DetachedOncePerSource` | src/lib/composition.ts:30-32 | with distinct sources, the last unsubscription lowers each source's count by exactly one, removing its own slot's handler and keeping the rest in order |
| `Composition.MergedSignal.constructor` | src/lib/composition.ts:23-35 | a merged signal starts detached, with an empty base signal, and no source holds its handlers |
| `Composition.MergedSignal.NOfSubscriptions` | src/lib/composition.ts:37-39 | the count is the base signal's, and it is non-zero exactly while attached |
| `Composition.MergedSignal.Subscribe` | src/lib/composition.ts:40-44 | joins the base signal; if detached, it attaches by appending the handlers to the sources in slot order; if already attached, it leaves every source list unchanged |
| `Composition.MergedSignal.Attach` | src/lib/composition.ts:42-44 | the detached-to-attached transition: every source list gets its attachments, and the invariant holds |
| `Composition.MergedSignal.SubscribeOriginals` | src/lib/composition.ts:43 | the `map` returns one handle per source, in input order, and appends each slot's handler to its source |
| `Composition.MergedSignal.SubscribeSlot` | src/lib/composition.ts:43 | one source's `subscribe(makeSubscriber(i))` appends that slot's handler, taking the first `i` slots' attachments to the first `i + 1` |
| `Composition.MergedSignal.AttachedAfter` | src/lib/composition.ts:43 | after the `map`, each handler is held by its own slot's source and by no other |
| `Composition.MergedSignal.Unsubscribe` | src/lib/composition.ts:29-48 | leaves the base signal; if that empties it while attached, every source list loses the merge's handlers, and otherwise the upstream lists are unchanged |
| `Composition.MergedSignal.Detach` | src/lib/composition.ts:30-33 | the attached-to-detached transition: the handles are called and cleared, and the invariant holds |
| `Composition.MergedSignal.CallOriginals` | src/lib/composition.ts:31 | calling each handle in turn leaves every source list without the merge's handlers, the rest in order |
| `Composition.MergedSignal.DetachedAfter` | src/lib/composition.ts:31-32 | once the handles have been called, no source holds a handler of the merge |
| `Composition.MergedSignal.Deliver` | src/lib/composition.ts:24-28 | the handler of slot `i` emits the change vector for `(i, v)` to the merged signal's subscribers |
| `Composition.ReadonlySignal.Subscribe` | src/lib/index.ts:16 | subscribing to a plain or merged signal, with the effect on its upstream when it is merged |
| `Composition.ReadonlySignal.Unsubscribe` | src/lib/index.ts:4 | unsubscribing from a plain or merged signal, with the effect on its upstream when it is merged |
| `Composition.ReadonlyHandle.Call` | src/lib/composition.ts:76 | calling the handle `subscribe` returned removes the subscriber from the signal it joined |
| `Composition.DerivedSignal.Valid` | src/lib/composition.ts:74-87 | the derived signal's state machine: the handle is stored exactly while the base signal has a subscriber, it is the one `subscribe` returned for `emitTransformed`, and the source holds `emitTransformed` exactly then |
| `Composition.DerivedSignal.constructor` | src/lib/composition.ts:69-80 | a derived signal starts detached, and the source does not hold `emitTransformed` |
| `Composition.DerivedSignal.NOfSubscriptions` | src/lib/composition.ts:82-84 | the count is the base signal's, and it is non-zero exactly while attached |
| `Composition.DerivedSignal.Subscribe` | src/lib/composition.ts:85-89 | joins the base signal; the first subscription appends `emitTransformed` to the source, and later ones leave the source unchanged |
| `Composition.DerivedSignal.Attach` | src/lib/composition.ts:87-89 | the detached-to-attached transition of the derived signal |
| `Composition.DerivedSignal.Unsubscribe` | src/lib/composition.ts:74-93 | leaves the base signal; when that empties it, `emitTransformed` is unsubscribed from the source, and otherwise the source is unchanged |
| `Composition.DerivedSignal.Detach` | src/lib/composition.ts:75-78 | the attached-to-detached transition: the upstream handle is called and cleared |
| `Composition.DerivedSignal.Deliver` | src/lib/composition.ts:71-73 | `emitTransformed(v)` emits `transform(v)` once to each of the derived signal's subscribers |
| `Composition.DeriveSignals` | src/lib/composition.ts:115-121 | `deriveSignals` is `deriveSignal` over a new merge of the sources, detached, so `transform` receives change vectors |
| `Composition.CoalesceSignals` | src/lib/composition.ts:139-141 | coalesce is `deriveSignals` with a transform that maps every change vector to the emitting source's value |
| `Scenarios.MergedObserved` | tests/merge.test.ts:35-37 | the readings are each source's count and then the merge's |
| `Scenarios.MergedCreated` | tests/merge.test.ts:32-37 | merging two fresh signals raises no count |
| `Scenarios.MergedSubscribe` | tests/merge.test.ts:39-42 | the first subscription puts each source's own slot handler on it, so every count reads 1 |
| `Scenarios.MergedEmit` | tests/merge.test.ts:43-47 | emits on the sources change no count |
| `Scenarios.MergedUnsubscribe` | tests/merge.test.ts:48-51 | the unsubscription takes each source's handler off again, so every count reads 0 |
| `Scenarios.MergedCounts` | tests/merge.test.ts:31-52 | the counts the merge test reads: 0, then 1 after subscribing and after emits, and 0 after the unsubscribe |
| `Scenarios.DerivedCounts` | tests/derive.test.ts:18-33 | the counts the derive test reads: 0, then 1 after subscribing and after an emit, and 0 after the unsubscribe |
| `Scenarios.MultiObserved` | tests/derive-multi.test.ts:35-37 | the readings are each source's count and then the derived signal's |
| `Scenarios.DeriveMultiCreated` | tests/derive-multi.test.ts:32-37 | `deriveSignals` over two fresh signals builds a detached merge and raises no count |
| `Scenarios.CoalescedCreated` | tests/coalesce.test.ts:20-25 | `coalesceSignals` over two fresh signals builds a detached merge and raises no count |
| `Scenarios.MultiSubscribe` | tests/derive-multi.test.ts:39-42 | the first subscription attaches the derived signal to the merge and the merge to each source, so every count reads 1 |
| `Scenarios.MultiEmit` | tests/derive-multi.test.ts:43-47 | emits on the sources change no count |
| `Scenarios.MultiUnsubscribe` | tests/derive-multi.test.ts:48-51 | the unsubscription detaches the derived signal from the merge and the merge from each source, so every count reads 0 |
| `Scenarios.DeriveMultiCounts` | tests/derive-multi.test.ts:31-52 | the counts the `deriveSignals` test reads: 0, then 1 after subscribing and after emits, and 0 after the unsubscribe |
| `Scenarios.CoalescedCounts` | tests/coalesce.test.ts:19-40 | the counts the `coalesceSignals` test reads: 0, then 1 after subscribing and after emits, and 0 after the unsubscribe |

## Left out

- Calling callbacks: `Emit` and `EmitFor` return the delivery log instead. A composite's closure being called is modelled by its `Deliver` method.
- Re-entrant mutation during `emit` (src/lib/index.ts:56): `emit` iterates the live array, and a callback that subscribes or unsubscribes mid-emission depends on JavaScript's array-iterator semantics. The model assumes callbacks do not touch the list, and claims no snapshot isolation.
- Nested emissions: a delivered callback may emit in turn, and the log states one emission only.
- Closure identity on reattach: JavaScript builds fresh `makeSubscriber(i)` closures on every attach. The model reuses `Handler(merge, i)`, which is equivalent because none is held while detached.
- Sources of `mergeSignals`: they are signals made by `makeSignal`, not arbitrary composites. A source of `deriveSignal` may be a plain or a merged signal, which covers what `deriveSignals` and `coalesceSignals` build.
- `transform` is a pure function; side effects inside it are not modelled.
- A source that emits `undefined` is not represented: `Option` always wraps a value.
- TypeScript's mapped and tuple types and casts (src/lib/composition.ts:22, 116-117, 140): change vectors are a uniform `seq<Option<T>>`.
- src/browser.ts and src/node.ts are demo programs (DOM, console, timers) and are not part of this model.
- `subscribeOnce`, `makeSimpleSignal`, `makeSimpleCachedSignal`, `lastEmitted`, `clearSubscriptions` and `nOfSubscriptions$` appear only in tests. They are not part of this model because no source file shown defines them.
