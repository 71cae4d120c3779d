# Reactive dependency tracking, modelled in Dafny

The repository has five small implementations of Vue-style reactivity. This project models each of them in Dafny and proves what each one does.

The four getter/setter versions are `kvue/01-reactive.js`, `mvue/mvue.js`, `kvue/kvue.js` and `kvue2/kvue2.js`. In these, `defineReactive` turns a property into an accessor pair. The pair closes over a value and, in all but the first file, a `Dep`. A read while the global `Dep.target` is set subscribes that watcher. A write of a different value (`!==`) stores the value and runs `update()` on every subscriber. `observe`/`Observer` install accessors on an object's own keys. `proxy` forwards `vm[key]` to `vm.$data[key]`.

The Proxy version is `kvue3/06-reactive.js` and its copy `06-reactive-clone.js`:
- `reactive` wraps an object in a Proxy.
- The get trap `track`s (target, key) for the effect on top of `effectStack`.
- The set trap `trigger`s every effect in `targetMap[target][key]` and then writes.
- `deleteProperty` only deletes.

Files:

- `js_values.dfy` (module `JsValues`): JavaScript values (`undefined`, strings, integers, booleans, object references), `Option`, duplicate-freedom and occurrence counting.
- `closure_heap.dfy` (module `ClosureHeap`): the heap shared by the three versions that have a `Dep`.
  - An own property is plain data or a reactive slot. A slot holds the closure value and the watchers of its `Dep`; the closure is reachable only through that accessor.
  - `Observed` gives the closed form of `observe`: every object the walk reaches has all its own keys re-installed with their current value and an empty `Dep`.
  - The walk's termination is carried by a ghost rank. A JavaScript heap with a cycle would overflow the stack.
- `kvue2.dfy` (module `Kvue2`): `Dep` is a `Set`, so `addDep` ignores a watcher already present. A `Watcher` is a getter that re-runs and re-subscribes on `update`. The getter is modelled as a fixed list of reads `vm[key].k1.k2...`. Arrays are walked like objects.
- `kvue.dfy` (module `Kvue`): `Dep` is a list, so `addDep` appends even duplicates. A watcher is bound to one key of the instance. `Observer` skips arrays, and `set` is `defineReactive`.
- `mvue.dfy` (module `Mvue`): a list `Dep` and key-bound watchers, as in kvue. `Observer.traverse` only makes the top-level keys reactive, and the setter never observes the value it stores. The read and notify functions of `Kvue` specify its `Dep`, because `attach`/`notify` behave as kvue's `addDep`/`notify`.
- `reactive06.dfy` (module `Reactive06`): the Proxy version.
  - `targetMap` is a map of maps of duplicate-free sequences in insertion order.
  - Effects are opaque ids; each effect's function is modelled by the property paths it reads.
  - A log records every effect run with the values it read, so "triggered effects see the old value" can be stated.
- `reactive06_clone.dfy` (module `Reactive06Clone`): the copy's functions, written from its own text, each proved equal to the original's.
- `reactive01.dfy` (module `Reactive01`): accessors over closure values with no tracking, and the script at the end of that file.

Each instance's state is a class (`KVue`, `MVue`, `Reactivity`, `Obj`). Its fields are the heap, the instance's `$data`, the proxied keys, the watchers, `Dep.target` and a log of updates. Its methods change the state as the source does. Each method is specified against a function of the old state, and the properties are proved as lemmas about those functions.

Observing an object that is already reactive installs new slots and discards the old `Dep`s, together with their subscribers. The model follows the code here.

## Model

| member | source | states |
|---|---|---|
| `ClosureHeap.Install` | kvue2/kvue2.js:9-26 | `Object.defineProperty` with a new `Dep`: the key becomes a slot holding the value with no subscriber; every other property keeps its value, its kind and its `Dep` |
| `ClosureHeap.Observed` | kvue2/kvue2.js:30-37 | observing keeps every value and leaves each `Dep` as it was or empty |
| `ClosureHeap.ObservedInstalls` | kvue2/kvue2.js:261-269 | after `observe(v)`, every own key of every object the walk reaches is a slot with its old value and no subscriber; objects it does not reach are unchanged |
| `ClosureHeap.ObservedNothing` | kvue2/kvue2.js:31-33 | observing a primitive (or, where arrays are skipped, an array) changes nothing |
| `ClosureHeap.WalkAvoidsOwner` | kvue2/kvue2.js:4 | in an acyclic heap, the nested `observe(val)` for one of an object's keys never re-walks that object |
| `ClosureHeap.WalkDone` | kvue2/kvue2.js:267-269 | once the key loop has handled every key, the heap is exactly the closed form of observing the object |
| `ClosureHeap.ResetObjIdempotent` | kvue2/kvue2.js:263-269 | walking an object whose keys are already fresh slots yields the same object |
| `ClosureHeap.SubscribeStep` | kvue2/kvue2.js:13 | growing one slot's `Dep` by the reader keeps every value, every slot and every other subscriber |
| `Kvue2.AddDep` | kvue2/kvue2.js:251-253 | `Set.add`: the watcher is a member afterwards, the members are the old ones plus it, the old order is a prefix, the length grows only for a new watcher, and duplicate-freedom is kept |
| `Kvue2.AddDepIdempotent` | kvue2/kvue2.js:248-253 | adding the same watcher twice equals adding it once |
| `Kvue2.Read` | kvue2/kvue2.js:10-16 | a read returns the stored value; with `Dep.target` null, or on a non-reactive key, the heap is unchanged |
| `Kvue2.ReadEffect` | kvue2/kvue2.js:13 | a read with `Dep.target` set adds exactly that watcher to the read slot's `Dep` (set semantics); every other `Dep` and every value is unchanged, and a `Dep` that already held the watcher stays as it was |
| `Kvue2.ReadPath` | kvue2/kvue2.js:10-16 | reading `v.k1.k2...` returns the nested value; with no target it changes nothing |
| `Kvue2.ReadPathEffect` | kvue2/kvue2.js:10-16 | after reading a path the reader is subscribed to every reactive slot on it; no value changes, only the `Dep`s of the slots on the path can change, and a `Dep` that already held the reader stays as it was |
| `Kvue2.ReadVmPath` | kvue2/kvue2.js:42-45 | a read of `vm[key].k1.k2...` returns the value the path denotes in `$data`; with no target the heap is unchanged; `Kvue2.ReadVmPathEffect` states what it does to the `Dep`s |
| `Kvue2.ReadVmPathEffect` | kvue2/kvue2.js:42-45 | reading through the forwarding accessor subscribes the reader to the slots on the path in `$data` and changes no other `Dep` and no value |
| `Kvue2.VmPathValuesAt` | kvue2/kvue2.js:42-45 | the i-th value a getter reads is `$data[key].rest…` through the forwarding accessor |
| `Kvue2.RunPaths` | kvue2/kvue2.js:234 | the getter's reads return the values its paths denote; with no target nothing changes; `Kvue2.RunPathsEffect` states what it does to the `Dep`s |
| `Kvue2.RunPathsEffect` | kvue2/kvue2.js:234 | running a getter subscribes the watcher to each slot it read, changes no value, and changes only the `Dep`s of the slots it read |
| `Kvue2.RunGetter` | kvue2/kvue2.js:232-236 | `Watcher.get` records a run whose values are those the getter's reads denote |
| `Kvue2.RunGetterEffect` | kvue2/kvue2.js:232-236 | after `get`, the watcher is subscribed to everything its getter read; only the `Dep`s of the slots it read change, and no value does |
| `Kvue2.RunGetterDeps` | kvue2/kvue2.js:13 | a `get` adds no subscriber other than its own watcher, and only to slots its getter read |
| `Kvue2.GetterSubscribedStable` | kvue2/kvue2.js:251-253 | subscriptions survive later reads, because a `Set` never loses members |
| `Kvue2.NotifiedEffect` | kvue2/kvue2.js:255-257 | `notify` (the function `Notified`) runs each watcher once per entry, in insertion order; each run sees the values of the final heap and each watcher ends subscribed to what it read |
| `Kvue2.NotifiedDepsFrame` | kvue2/kvue2.js:255-257 | `notify` changes only the `Dep`s of slots the re-run getters read |
| `Kvue2.NotifiedKeepsFull` | kvue2/kvue2.js:251-257 | a `Dep` already holding every notified watcher is left exactly as it was |
| `Kvue2.NotifiedGainsRead` | kvue2/kvue2.js:251-257 | a watcher joins a `Dep` during `notify` only if it was notified and its getter read that slot |
| `Kvue2.Written` | kvue2/kvue2.js:17-25 | a write re-runs one watcher per entry of the slot's `Dep` when the value differs, and none for an equal value or a non-reactive key; `Kvue2.WriteSemantics`, `Kvue2.WriteChanged`, `Kvue2.WrittenStores` and the `Kvue2.Write*` `Dep` lemmas below state the rest |
| `Kvue2.WriteSemantics` | kvue2/kvue2.js:17-25 | an equal value changes nothing and notifies nobody; a different one is observed (every object it leads to becomes reactive), stored, and re-runs each subscriber in order; the written slot keeps its `Dep`; a non-reactive key is just stored and no `Dep` changes; no other value changes |
| `Kvue2.WriteChanged` | kvue2/kvue2.js:18-24 | the different-value case of the setter, in detail: the value stored, one run per `Dep` entry in order, each seeing the final heap and re-subscribed, every object the value leads to made reactive, no other value changed |
| `Kvue2.WriteNotifies` | kvue2/kvue2.js:20-23 | the setter observes the new value, stores it in the closure and notifies the old `Dep`: the objects the value leads to have lost their subscribers before the notification, and every other `Dep` is as it was |
| `Kvue2.WriteKeepsDep` | kvue2/kvue2.js:7-23 | the written slot's `Dep` is unchanged by a write: every watcher it re-runs is already in it |
| `Kvue2.WriteResetsReached` | kvue2/kvue2.js:20 | after a write, every slot of an object the new value leads to holds only re-run watchers whose getters read it; earlier subscribers are gone |
| `Kvue2.WriteDepsFrame` | kvue2/kvue2.js:17-25 | a slot outside the new value, not read by any re-run getter, keeps its `Dep` |
| `Kvue2.WriteNewSubscribersRead` | kvue2/kvue2.js:13 | a watcher joins a `Dep` during a write only if the write re-ran it and its getter read that slot |
| `Kvue2.WrittenStores` | kvue2/kvue2.js:17-25 | `Written` leaves the new value in the slot the accessor reaches, also when the value leads back to the written object |
| `Kvue2.WrittenAsWritten` | kvue2/kvue2.js:17-25 | the setter as written equals `Written` whenever the new value does not lead back to the written object |
| `Kvue2.WriteIntoDiscardedClosure` | kvue2/kvue2.js:4 | as written, a value that leads back to the written object (`o.k = {back: o}`) is lost: the key still reads the old value |
| `Kvue2.WriteKeepsOk` | kvue2/kvue2.js:17-25 | a write keeps the heap closed, every subscriber a known watcher and every `Dep` duplicate-free |
| `Kvue2.WriteUpdatesEachWatcherOnce` | kvue2/kvue2.js:248-257 | with `Set` Deps, no watcher is re-run twice by one write |
| `Kvue2.ObserveWalksArrays` | kvue2/kvue2.js:267-269 | there is no array case: an array's index keys become reactive |
| `Kvue2.KVue.constructor` | kvue2/kvue2.js:58-68 | `$data` is observed, its keys are proxied, there are no watchers and no updates |
| `Kvue2.KVue.Get` | kvue2/kvue2.js:10-16 | the accessor read: the value and new heap are those of `Read`, and the invariant holds |
| `Kvue2.KVue.GetPath` | kvue2/kvue2.js:10-16 | a chain of accessor reads equals `ReadPath` |
| `Kvue2.KVue.GetVmPath` | kvue2/kvue2.js:42-45 | a read through `vm[key]` equals `ReadVmPath` |
| `Kvue2.KVue.RunGet` | kvue2/kvue2.js:232-236 | `get` sets the target, reads, then leaves `Dep.target` null whatever it was; the heap and the run are `RunGetter`'s |
| `Kvue2.KVue.Update` | kvue2/kvue2.js:238-240 | `update` is `get` again: the log gains one run |
| `Kvue2.KVue.NewWatcher` | kvue2/kvue2.js:225-230 | a fresh watcher is registered and its getter runs once |
| `Kvue2.KVue.Notify` | kvue2/kvue2.js:255-257 | the heap and log afterwards are those of `Notified` over the Dep's entries |
| `Kvue2.KVue.Observe` | kvue2/kvue2.js:30-37 | the heap becomes `Observed(old heap, v)`; a primitive changes nothing |
| `Kvue2.KVue.Walk` | kvue2/kvue2.js:261-271 | the key loop produces `Observed` of the object |
| `Kvue2.KVue.DefineReactive` | kvue2/kvue2.js:1-28 | `val` is observed first, then the key is installed with a new `Dep` |
| `Kvue2.KVue.Assign` | kvue2/kvue2.js:17-25 | an assignment produces the heap and the updates of `Written` |
| `Kvue2.KVue.VmAssign` | kvue2/kvue2.js:47-49 | `vm[key] = val` is `$data[key] = val` |
| `Kvue2.KVue.Proxy` | kvue2/kvue2.js:39-52 | every key `$data` has at call time is forwarded |
| `Kvue.AddDep` | kvue/kvue.js:207-209 | `push`: the old list is a prefix and the watcher is appended even if present |
| `Kvue.AddDepCounts` | kvue/kvue.js:207-209 | each `addDep` adds one occurrence of the watcher |
| `Kvue.Read` | kvue/kvue.js:12-18 | a read returns the stored value; with no target, or on a non-reactive key, the heap is unchanged |
| `Kvue.ReadEffect` | kvue/kvue.js:15 | a read with a target appends it to the read slot's `Dep` only |
| `Kvue.VmRead` | kvue/kvue.js:49-52 | `vm[key]` reads `$data[key]` for a proxied key and `undefined` otherwise |
| `Kvue.Notified` | kvue/kvue.js:211-213 | `notify` makes one update per list entry; `Kvue.NotifiedAt` and `Kvue.NotifiedCounts` state which and how often |
| `Kvue.NotifiedAt` | kvue/kvue.js:211-213 | the i-th update calls the i-th entry's `fn` with the current `vm[key]` |
| `Kvue.NotifiedCounts` | kvue/kvue.js:211-213 | a watcher is updated as many times as it occurs in the list |
| `Kvue.Written` | kvue/kvue.js:19-28 | a write makes one update per entry of the slot's `Dep` when the value differs, and none for an equal value or a non-reactive key; `Kvue.WriteSemantics` states the rest |
| `Kvue.WriteSemantics` | kvue/kvue.js:19-28 | an equal value does nothing; a different one is observed (non-array objects only), stored with the `Dep` kept, and there is one update per entry in order; a non-reactive key is just stored |
| `Kvue.WriteUpdatesPerEntry` | kvue/kvue.js:204-213 | a watcher added k times is updated k times by one write |
| `Kvue.ObserveSkipsArrays` | kvue/kvue.js:64-70 | `Observer` on an array installs nothing |
| `Kvue.SetDropsSubscribers` | kvue/kvue.js:33-35 | `set` installs a fresh empty `Dep`, dropping earlier subscribers, and observes `val` |
| `Kvue.KVue.constructor` | kvue/kvue.js:85-94 | `$data` is observed (arrays skipped) and its keys are proxied |
| `Kvue.KVue.Get` | kvue/kvue.js:12-18 | the accessor read equals `Read` |
| `Kvue.KVue.VmGet` | kvue/kvue.js:49-52 | a read through the forwarding accessor equals `VmRead` |
| `Kvue.KVue.NewWatcher` | kvue/kvue.js:220-229 | the target is set, `vm[key]` is read once (subscribing through `proxy`), and the target is reset to null |
| `Kvue.KVue.Update` | kvue/kvue.js:231-233 | calls `fn` with the current `vm[key]`, leaving the heap and `Dep.target` unchanged |
| `Kvue.KVue.Notify` | kvue/kvue.js:211-213 | the log gains `Notified` over the list, in order |
| `Kvue.KVue.Observe` | kvue/kvue.js:37-44 | a primitive is returned untouched; an object gets `new Observer` |
| `Kvue.KVue.NewObserver` | kvue/kvue.js:62-71 | an array installs nothing; an object is walked |
| `Kvue.KVue.Walk` | kvue/kvue.js:74-78 | the key loop produces `Observed` of the object |
| `Kvue.KVue.DefineReactive` | kvue/kvue.js:4-31 | `val` is observed, then the key is installed with a new `Dep` |
| `Kvue.KVue.Set` | kvue/kvue.js:33-35 | `set` is `defineReactive` |
| `Kvue.KVue.Assign` | kvue/kvue.js:19-28 | an assignment produces the heap and the updates of `Written` |
| `Kvue.KVue.VmAssign` | kvue/kvue.js:54-56 | `vm[key] = val` is `$data[key] = val` |
| `Kvue.KVue.Proxy` | kvue/kvue.js:46-59 | every key `$data` has at call time is forwarded |
| `Mvue.Traversed` | mvue/mvue.js:53-59 | `new Observer` keeps the heap's objects |
| `Mvue.TraverseTopLevelOnly` | mvue/mvue.js:61-63 | only the object's own keys become slots (value kept, no subscriber); every other object, including nested ones, is untouched |
| `Mvue.TraverseArrayNothing` | mvue/mvue.js:65-67 | `traverseArray` installs nothing |
| `Mvue.Written` | mvue/mvue.js:79-85 | a write makes one update per entry of the slot's `Dep` when the value differs, and none for an equal value or a non-reactive key; `Mvue.WriteSemantics` states the rest |
| `Mvue.WriteSemantics` | mvue/mvue.js:79-85 | an equal value does nothing; a different one is stored with the `Dep` kept and one update per entry, in order; no other object changes, so a new object value is not made reactive |
| `Mvue.WriteUpdatesPerEntry` | mvue/mvue.js:100-109 | a watcher attached k times is updated k times |
| `Mvue.MVue.constructor` | mvue/mvue.js:11-17 | `$data` is traversed (top level only) and its keys are proxied |
| `Mvue.MVue.Observe` | mvue/mvue.js:23-29 | a primitive is returned untouched; an object gets `new Observer` |
| `Mvue.MVue.NewObserver` | mvue/mvue.js:53-59 | an array goes to `traverseArray`, an object to `traverse` |
| `Mvue.MVue.Traverse` | mvue/mvue.js:61-63 | the key loop produces `Traversed` |
| `Mvue.MVue.DefineReactive` | mvue/mvue.js:69-87 | installs the accessor with a new `Dep`, without observing `val` |
| `Mvue.MVue.Get` | mvue/mvue.js:74-78 | the getter attaches `Dep.target` when set and returns the stored value |
| `Mvue.MVue.VmGet` | mvue/mvue.js:34-36 | `vm[key]` forwards to `$data[key]` |
| `Mvue.MVue.NewWatcher` | mvue/mvue.js:122-131 | reads `vm[key]` once with `Dep.target` set to the new watcher, then resets it to null |
| `Mvue.MVue.Update` | mvue/mvue.js:133-135 | calls `fn` with the current `vm[key]` |
| `Mvue.MVue.Notify` | mvue/mvue.js:107-109 | the log gains one update per entry, in order |
| `Mvue.MVue.Assign` | mvue/mvue.js:79-85 | an assignment produces the heap and the updates of `Written` |
| `Mvue.MVue.VmAssign` | mvue/mvue.js:37-39 | `vm[key] = val` is `$data[key] = val` |
| `Mvue.MVue.Proxy` | mvue/mvue.js:31-41 | every key `$data` has at call time is forwarded |
| `Reactive06.Reactive` | kvue3/06-reactive.js:2-29 | a non-object comes back unchanged; an object gets a Proxy standing for that same object |
| `Reactive06.GetResult` | kvue3/06-reactive.js:11-14 | a non-object result is returned as read; an object result comes back as a Proxy over the outer target |
| `Reactive06.Subscribe` | kvue3/06-reactive.js:67-82 | the set gains the effect only if absent; the inner map and set appear on first use |
| `Reactive06.TrackSemantics` | kvue3/06-reactive.js:63-84 | `track` (the function `Tracked`): with an empty stack `track` changes nothing; otherwise the top effect is in the (target, key) set, which gained at most it; other sets are unchanged |
| `Reactive06.TrackIdempotent` | kvue3/06-reactive.js:63-84 | tracking the same (target, key) twice equals tracking it once |
| `Reactive06.AddAllEffect` | kvue3/06-reactive.js:82 | after an effect's reads (the function `AddAll`), each pair it read holds it exactly once more if it was absent; unread pairs keep their sets |
| `Reactive06.TriggerRun` | kvue3/06-reactive.js:95-97 | a trigger runs as many effects as the set holds; `Reactive06.TriggerRunsEach` and `Reactive06.TriggerRunKeeps` state which and what they subscribe |
| `Reactive06.TriggerRunKeeps` | kvue3/06-reactive.js:87-98 | sets stay duplicate-free and hold only created effects |
| `Reactive06.TriggerRunsEach` | kvue3/06-reactive.js:95-97 | the i-th run of a trigger is the i-th effect of the set, reading the objects as they are |
| `Reactive06.TriggerKeepsSet` | kvue3/06-reactive.js:96 | the set being iterated does not change while its effects run, so iterating the live `Set` equals iterating its contents at the start |
| `Reactive06.TriggeredEffectSeesOldValue` | kvue3/06-reactive.js:17-22 | because trigger runs before `Reflect.set`, an effect reading the written key logs the value being replaced |
| `Reactive06.PathRead` | kvue3/06-reactive.js:9-15 | chained get traps track at most one pair per key, and the i-th pair tracked carries the i-th key; `Reactive06.PathStaysOnTarget` states on which object |
| `Reactive06.PathStaysOnTarget` | kvue3/06-reactive.js:14 | as written, every key of a path read through a proxy is looked up on the root object |
| `Reactive06.NestedReadMissesInner` | kvue3/06-reactive.js:121-125 | `obj.a.b` with `a: {b: 1}` tracks `(obj, b)` and yields undefined; with `reactive(res)` it yields 1 |
| `Reactive06.IntendedGet` | kvue3/06-reactive.js:14 | `reactive(res)` stands for exactly the value read |
| `Reactive06.IntendedTrackedAt` | kvue3/06-reactive.js:11-14 | with `reactive(res)`, the i-th key of a path is tracked exactly when the first i keys lead to an object, and then on that object |
| `Reactive06.IntendedPathReadsNested` | kvue3/06-reactive.js:11-14 | with `reactive(res)`, a read through proxies returns the plain nested lookup; the i-th pair tracked is the object the first i keys lead to with the i-th key, and every object along the path is tracked |
| `Reactive06.Reactivity.constructor` | kvue3/06-reactive.js:59 | an empty `effectStack` and `targetMap` |
| `Reactive06.Reactivity.Track` | kvue3/06-reactive.js:63-84 | the step-by-step `track` yields `Tracked` of the old map |
| `Reactive06.Reactivity.GetTrap` | kvue3/06-reactive.js:9-15 | returns `GetResult` and tracks (target, key) |
| `Reactive06.Reactivity.ReadPath` | kvue3/06-reactive.js:9-15 | chained get traps return `PathRead`'s value and track its pairs |
| `Reactive06.Reactivity.RunEffect` | kvue3/06-reactive.js:44-54 | a run pushes, runs and pops: the stack is as before, the effect is subscribed to everything it read, and one run is logged |
| `Reactive06.Reactivity.RunBody` | kvue3/06-reactive.js:49 | `fn` runs its reads in order |
| `Reactive06.Reactivity.CreateReactiveEffect` | kvue3/06-reactive.js:43-56 | a new effect is created, not yet run |
| `Reactive06.Reactivity.Effect` | kvue3/06-reactive.js:35-41 | `effect(fn)` runs the new effect exactly once and returns it |
| `Reactive06.Reactivity.Trigger` | kvue3/06-reactive.js:87-98 | an unknown target or key does nothing; otherwise each effect of the set runs once, in order; the set itself is unchanged |
| `Reactive06.Reactivity.RunAll` | kvue3/06-reactive.js:96 | the `forEach` loop equals `TriggerRun` |
| `Reactive06.Reactivity.SetTrap` | kvue3/06-reactive.js:17-22 | triggers with no equality check and on the old objects, then writes; returns true |
| `Reactive06.Reactivity.DeleteTrap` | kvue3/06-reactive.js:24-27 | deletes the key, triggers nothing, and keeps subscriptions and the log; returns true |
| `Reactive06Clone.Reactive` | kvue3/06-reactive-clone.js:2-22 | a non-object comes back unchanged; an object gets a Proxy over itself |
| `Reactive06Clone.GetTrapResult` | kvue3/06-reactive-clone.js:9-13 | the value read, or a Proxy over the outer target for an object |
| `Reactive06Clone.Track` | kvue3/06-reactive-clone.js:52-69 | with an empty stack nothing changes; otherwise the top effect is in the (target, key) set |
| `Reactive06Clone.TriggerDeps` | kvue3/06-reactive-clone.js:72-82 | no effect for an unknown target or key; otherwise the set's effects |
| `Reactive06Clone.ReactiveAgrees` | kvue3/06-reactive-clone.js:4-6 | the copy's `reactive` equals the original's |
| `Reactive06Clone.GetTrapAgrees` | kvue3/06-reactive-clone.js:9-13 | the copy's get trap result equals the original's |
| `Reactive06Clone.TrackAgrees` | kvue3/06-reactive-clone.js:52-69 | the copy's `track` builds the same `targetMap` as the original's |
| `Reactive06Clone.TriggerAgrees` | kvue3/06-reactive-clone.js:72-82 | the copy's `trigger` runs the same effects as the original's |
| `Reactive01.Setter` | kvue/01-reactive.js:14-24 | the closure ends up holding `newVal`, and an equal value leaves it unchanged |
| `Reactive01.Obj.constructor` | kvue/01-reactive.js:29 | the object starts with no properties |
| `Reactive01.Obj.DefineReactive` | kvue/01-reactive.js:3-27 | the key gets an accessor with its own closure value; no other key changes |
| `Reactive01.Obj.Get` | kvue/01-reactive.js:10-13 | the getter returns the closure's current value |
| `Reactive01.Obj.Set` | kvue/01-reactive.js:14-24 | the setter leaves `newVal` in the closure and touches no other key |
| `Reactive01.Script` | kvue/01-reactive.js:29-33 | at the end of the script `obj.foo` is "foooooooooo" and `obj.bar` is still "barr" |

## Findings

| source | as written | input that shows it | evidently intended | confidence | as-written member | corrected member |
|---|---|---|---|---|---|---|
| kvue2/kvue2.js:20-21 | `observe(newVal)` runs before `val = newVal` | `o.k = {back: o}`: observing the new value walks `o` again and re-installs `o.k` with a new closure holding the old value; `val = newVal` then assigns the old closure, which no accessor reaches, so `o.k` still reads the old value | the key reads the new value after the write | not executed | `Kvue2.WriteIntoDiscardedClosure` | `Kvue2.WrittenStores` |
| kvue3/06-reactive.js:14 | an object result is returned as `reactive(obj)`, a Proxy over the outer target | `reactive({a: {b: 1}}).a.b`: `.a` returns the outer proxy again, so `.b` reads the outer object's `b` (undefined) and tracks (obj, b) instead of (obj.a, b). This is the commented example at the end of the file | `reactive(res)`, a Proxy over the object read | not executed | `Reactive06.NestedReadMissesInner` | `Reactive06.IntendedPathReadsNested` |

`kvue/kvue.js:23-24` has the same setter. `Kvue2.WrittenAsWritten` models the lost write, and `Kvue2.Written` is the corrected definition. The rest of the model only writes values that do not lead back to the written object (see Left out), and there the two agree.

The get-trap line appears again in `kvue3/06-reactive-clone.js:12`. `Reactive06.Reactivity` keeps the get trap as written. `IntendedGet` and `IntendedPathRead` are the corrected definitions, and the lemma about them is proved.

## Left out

- DOM compilation and patching (`Compile`, `Compiler`, `$mount`, `_update`, `__patch__`) and every `console.log` call: browser APIs and output.
- `kvue/kvue.js` and `kvue2/kvue2.js`: `KVue.$mount` and the compile step of the constructor.
- Watcher and effect bodies are user code. They are modelled by what they read: kvue2 getters by a list of paths, kvue/mvue watchers by their key, Proxy effects by a list of property paths. Callbacks that write, and the re-entrant notification a write would cause, are not modelled.
- Nested effects: an effect body only reads, so `effect` is never called while another effect runs.
- JavaScript exceptions and `null`. `observe(null)` would throw in `Object.keys`, so there is no null value. In the Proxy model, reading a property of a primitive yields undefined and tracks nothing; JavaScript would throw on undefined.
- `Kvue2.PathValue`, `Kvue2.ReadPath`, `Kvue2.ReadVmPath` and `Kvue2.RunPaths`: a key read on a primitive yields undefined. JavaScript reads a string's own properties instead (`"abc".length` is 3) and throws on undefined or null.
- Floating point, `NaN` and `-0`: numbers are integers, so `!==` is datatype inequality.
- Symbol keys, getters on the instance other than the proxied keys (read as undefined), and key iteration order. `Object.keys` is modelled as an unordered choice, and the result does not depend on it.
- `WeakMap` garbage collection, Proxy identity (a fresh Proxy on every `reactive` call), and wrapper caching.
- One instance at a time shares the global `Dep.target`.
- `Kvue2.KVue.constructor`, `Kvue.KVue.constructor`, `Kvue2.KVue.Observe`, `Kvue.KVue.Observe` and the other walking methods require an acyclic heap (a ghost rank). `observe` on a cyclic object never returns in JavaScript.
- `Kvue2.KVue.Assign`, `Kvue2.KVue.VmAssign`, `Kvue2.WriteSemantics`, `Kvue2.WriteChanged`, `Kvue.KVue.Assign`, `Kvue.KVue.VmAssign` and `Kvue.WriteSemantics` require that the walk of the new value does not reach the written object. If it did, `observe(newVal)` would re-install that very slot and the setter would write into the discarded closure (see Findings: `Kvue2.WriteIntoDiscardedClosure`). Storing the value as intended would make the heap cyclic, and the walk's ghost rank needs an acyclic heap, so the instance methods do not take that case.
- `Kvue.KVue.Set` (with `ClosureHeap.Install`): a key that `set` creates is, in JavaScript, non-enumerable and non-configurable, because `Object.defineProperty` defaults both to false. Later walks (`Object.keys`) skip such a key, and a second `set` on it throws a TypeError. The model treats it like any other reactive key: a later walk re-installs it and a second `set` succeeds. For a key that already existed, `set` keeps its attributes and the model is exact.
- `Mvue.MVue.constructor`, `Kvue.KVue.constructor` and `Kvue2.KVue.constructor` require a heap with no subscriber yet, the state before any watcher exists.
- `kvue3/06-reactive-clone.js`: `effect`, `createReactiveEffect`, `effectStack`, `targetMap` and the set and deleteProperty traps are the same statements as in `06-reactive.js`. `Reactive06.Reactivity` models both files, and `Reactive06Clone` proves the copy's functions equal to the original's.
