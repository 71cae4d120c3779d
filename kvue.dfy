/** kvue/kvue.js: getter/setter reactivity whose `Dep` is an append-only list and whose
    `Watcher` is bound to one key of the instance. `Observer` skips arrays. */
module Kvue {
  import opened JsValues
  import opened ClosureHeap

  /** One `watcher.update()`: `fn` called with the value of `vm[key]`. */
  datatype Call = Call(watcher: WatcherId, value: Value)

  /** `vm.$data`, the keys `proxy` forwarded, and the key each watcher is bound to. */
  datatype Vm = Vm(data: ObjId, proxied: set<Key>, keys: map<WatcherId, Key>)

  // ---------------------------------------------------------------------------------------
  // Dep (kvue.js:200-215)

  /** `Dep.addDep`: `this.watchers.push(watcher)`, even when the watcher is already there. */
  function AddDep(dep: seq<WatcherId>, w: WatcherId): (r: seq<WatcherId>)
    ensures |r| == |dep| + 1 && r[..|dep|] == dep && r[|dep|] == w
  {
    dep + [w]
  }

  /** Adding counts one more occurrence of the added watcher and leaves every other count alone. */
  lemma AddDepCounts(dep: seq<WatcherId>, w: WatcherId, x: WatcherId)
    ensures Count(x, AddDep(dep, w)) == Count(x, dep) + (if x == w then 1 else 0)
  {
    CountAppend(x, dep, [w]);
    assert Count(x, [w]) == (if x == w then 1 else 0) + Count(x, [w][1..]);
  }

  // ---------------------------------------------------------------------------------------
  // Reads

  /** `obj[key]`: through the getter of kvue.js:12-18 when the key is reactive, which appends
      `Dep.target` (when set) to the slot's Dep; a plain read otherwise. */
  function Read(h: Heap, target: Option<WatcherId>, o: ObjId, k: Key): (r: (Heap, Value))
    ensures r.1 == ValueAt(h, o, k)
    ensures target.None? || !IsSlot(h, o, k) ==> r.0 == h
  {
    if target.Some? && IsSlot(h, o, k) then
      var slot := h[o].props[k];
      (Store(h, o, k, slot.(dep := AddDep(slot.dep, target.value))), slot.val)
    else
      (h, ValueAt(h, o, k))
  }

  /** A read changes only the read slot's Dep, which gains one more entry for the reader. */
  lemma ReadEffect(h: Heap, target: Option<WatcherId>, o: ObjId, k: Key)
    ensures var r := Read(h, target, o, k).0;
      && ReadStep(h, r, Targets(target))
      && (target.Some? && IsSlot(h, o, k) ==> DepAt(r, o, k) == AddDep(DepAt(h, o, k), target.value))
      && (forall p, j :: p != o || j != k ==> DepAt(r, p, j) == DepAt(h, p, j))
  {
    if target.Some? && IsSlot(h, o, k) {
      var r := Read(h, target, o, k).0;
      SubscribeStep(h, o, k, AddDep(DepAt(h, o, k), target.value), target.value);
      assert DepAt(r, o, k) == AddDep(DepAt(h, o, k), target.value);
    } else {
      ReadStepRefl(h, Targets(target));
    }
  }

  /** `vm[key]`: `vm.$data[key]` for a key `proxy` forwarded (kvue.js:46-59); any other key of
      the instance is `undefined` here. */
  function VmValue(h: Heap, vm: Vm, key: Key): Value
  {
    if key in vm.proxied then ValueAt(h, vm.data, key) else Undefined
  }

  /** Reading `vm[key]` through the forwarding accessor. */
  function VmRead(h: Heap, target: Option<WatcherId>, vm: Vm, key: Key): (r: (Heap, Value))
    ensures r.1 == VmValue(h, vm, key)
    ensures target.None? ==> r.0 == h
  {
    if key in vm.proxied then Read(h, target, vm.data, key) else (h, Undefined)
  }

  // ---------------------------------------------------------------------------------------
  // Watcher and notify

  /** `dep.notify()` (kvue.js:211-213): one `update()` per entry, in order. An update reads
      `vm[key]` while `Dep.target` is null, so the heap does not change. */
  function Notified(h: Heap, vm: Vm, ws: seq<WatcherId>): (r: seq<Call>)
    requires forall i :: 0 <= i < |ws| ==> ws[i] in vm.keys
    ensures |r| == |ws|
    decreases |ws|
  {
    if ws == [] then []
    else [Call(ws[0], VmValue(h, vm, vm.keys[ws[0]]))] + Notified(h, vm, ws[1..])
  }

  /** The i-th update is the i-th entry's, and it sees the current value of its key. */
  lemma {:induction false} NotifiedAt(h: Heap, vm: Vm, ws: seq<WatcherId>, i: nat)
    requires forall j :: 0 <= j < |ws| ==> ws[j] in vm.keys
    requires i < |ws|
    ensures Notified(h, vm, ws)[i] == Call(ws[i], VmValue(h, vm, vm.keys[ws[i]]))
  {
    if i > 0 {
      NotifiedAt(h, vm, ws[1..], i - 1);
    }
  }

  /** How many of `calls` went to `w`. */
  function CallsTo(w: WatcherId, calls: seq<Call>): nat
  {
    if calls == [] then 0 else (if calls[0].watcher == w then 1 else 0) + CallsTo(w, calls[1..])
  }

  /** A watcher that occurs k times in the Dep is updated k times. */
  lemma {:induction false} NotifiedCounts(h: Heap, vm: Vm, ws: seq<WatcherId>, w: WatcherId)
    requires forall i :: 0 <= i < |ws| ==> ws[i] in vm.keys
    ensures CallsTo(w, Notified(h, vm, ws)) == Count(w, ws)
    decreases |ws|
  {
    if ws != [] {
      NotifiedCounts(h, vm, ws[1..], w);
      assert Notified(h, vm, ws)[1..] == Notified(h, vm, ws[1..]);
    }
  }

  // ---------------------------------------------------------------------------------------
  // Writes

  /** `obj[key] = newVal`: through the setter of kvue.js:19-28 when the key is reactive (skip an
      equal value; otherwise observe the new value, store it, notify the Dep); a plain data write
      otherwise. */
  ghost function Written(h: Heap, vm: Vm, rank: map<ObjId, nat>, o: ObjId, k: Key, newVal: Value): (r: (Heap, seq<Call>))
    requires Ranked(h, rank) && o in h && DepsIn(h, vm.keys.Keys)
    ensures |r.1| == if IsSlot(h, o, k) && newVal != ValueAt(h, o, k) then |DepAt(h, o, k)| else 0
  {
    if IsSlot(h, o, k) then
      var slot := h[o].props[k];
      if newVal == slot.val then (h, [])
      else
        assert forall i :: 0 <= i < |slot.dep| ==> slot.dep[i] in DepAt(h, o, k);
        var h2 := Store(Observed(h, rank, false, newVal), o, k, slot.(val := newVal));
        (h2, Notified(h2, vm, slot.dep))
    else
      (Store(h, o, k, Plain(newVal)), [])
  }

  /** What one write does. An equal value changes nothing and notifies nobody. A different value
      is stored, every non-array object it leads to becomes reactive, and there is one update per
      Dep entry, in order, each seeing the new state. A non-reactive key is just stored. No other
      key's value changes. */
  lemma WriteSemantics(h: Heap, vm: Vm, rank: map<ObjId, nat>, o: ObjId, k: Key, newVal: Value)
    requires Ranked(h, rank) && o in h && !Walks(h, rank, false, newVal, o) && DepsIn(h, vm.keys.Keys)
    ensures var r := Written(h, vm, rank, o, k, newVal);
      && (IsSlot(h, o, k) && newVal == ValueAt(h, o, k) ==> r == (h, []))
      && (IsSlot(h, o, k) && newVal != ValueAt(h, o, k) ==>
            && IsSlot(r.0, o, k) && ValueAt(r.0, o, k) == newVal && DepAt(r.0, o, k) == DepAt(h, o, k)
            && |r.1| == |DepAt(h, o, k)|
            && (forall i :: 0 <= i < |r.1| ==>
                  r.1[i] == Call(DepAt(h, o, k)[i], VmValue(r.0, vm, vm.keys[DepAt(h, o, k)[i]])))
            && (forall p, j :: Walks(h, rank, false, newVal, p) && p in h && j in h[p].props ==> IsSlot(r.0, p, j)))
      && (!IsSlot(h, o, k) ==> r.1 == [] && ValueAt(r.0, o, k) == newVal && !IsSlot(r.0, o, k))
      && (forall p, j :: p != o || j != k ==> ValueAt(r.0, p, j) == ValueAt(h, p, j))
  {
    if IsSlot(h, o, k) && newVal != ValueAt(h, o, k) {
      var slot := h[o].props[k];
      var h1 := Observed(h, rank, false, newVal);
      ObservedInstalls(h, rank, false, newVal, o, k);
      var h2 := Store(h1, o, k, slot.(val := newVal));
      assert forall i :: 0 <= i < |slot.dep| ==> slot.dep[i] in DepAt(h, o, k);
      forall i | 0 <= i < |slot.dep|
        ensures Notified(h2, vm, slot.dep)[i] == Call(slot.dep[i], VmValue(h2, vm, vm.keys[slot.dep[i]]))
      {
        NotifiedAt(h2, vm, slot.dep, i);
      }
      forall p, j | Walks(h, rank, false, newVal, p) && p in h && j in h[p].props
        ensures IsSlot(h2, p, j)
      {
        ObservedInstalls(h, rank, false, newVal, p, j);
      }
      forall p, j | p != o || j != k
        ensures ValueAt(h2, p, j) == ValueAt(h, p, j)
      {
        assert ValueAt(h2, p, j) == ValueAt(h1, p, j);
      }
    }
  }

  /** With list-backed Deps, a watcher subscribed k times is updated k times by one write. */
  lemma WriteUpdatesPerEntry(h: Heap, vm: Vm, rank: map<ObjId, nat>, o: ObjId, k: Key, newVal: Value, w: WatcherId)
    requires Ranked(h, rank) && o in h && DepsIn(h, vm.keys.Keys)
    requires IsSlot(h, o, k) && newVal != ValueAt(h, o, k)
    ensures CallsTo(w, Written(h, vm, rank, o, k, newVal).1) == Count(w, DepAt(h, o, k))
  {
    var slot := h[o].props[k];
    var h2 := Store(Observed(h, rank, false, newVal), o, k, slot.(val := newVal));
    assert forall i :: 0 <= i < |slot.dep| ==> slot.dep[i] in DepAt(h, o, k);
    NotifiedCounts(h2, vm, slot.dep, w);
  }

  /** kvue's `Observer` stops at an array: its index keys stay as they were. */
  lemma ObserveSkipsArrays(h: Heap, rank: map<ObjId, nat>, a: ObjId)
    requires Ranked(h, rank) && a in h && h[a].isArray
    ensures Observed(h, rank, false, Ref(a)) == h
  {
    ObservedNothing(h, rank, false, Ref(a));
  }

  /** `set(obj, key, val)` is `defineReactive`: the slot gets a fresh, empty Dep, so whoever was
      subscribed to it before is dropped, and no one is notified. */
  lemma SetDropsSubscribers(h: Heap, rank: map<ObjId, nat>, o: ObjId, k: Key, val: Value)
    requires Ranked(h, rank) && o in h && !Walks(h, rank, false, val, o)
    ensures var r := Install(Observed(h, rank, false, val), o, k, val);
      && IsSlot(r, o, k) && ValueAt(r, o, k) == val && DepAt(r, o, k) == []
      && (forall p, j :: p != o || j != k ==> ValueAt(r, p, j) == ValueAt(h, p, j))
      && (forall p, j :: Walks(h, rank, false, val, p) && p in h && j in h[p].props ==> IsSlot(r, p, j))
  {
    var h1 := Observed(h, rank, false, val);
    forall p, j | Walks(h, rank, false, val, p) && p in h && j in h[p].props
      ensures IsSlot(h1, p, j)
    {
      ObservedInstalls(h, rank, false, val, p, j);
    }
    forall p, j | p != o || j != k
      ensures ValueAt(Install(h1, o, k, val), p, j) == ValueAt(h, p, j)
    {
      assert ValueAt(h1, p, j) == ValueAt(h, p, j);
    }
  }

  // ---------------------------------------------------------------------------------------
  // The instance

  /** A `KVue` instance together with the global `Dep.target`. */
  class KVue {
    var heap: Heap
    var data: ObjId                   // this.$data
    var proxied: set<Key>             // the keys proxy() forwarded
    var keys: map<WatcherId, Key>     // the key each Watcher is bound to
    var nextWatcher: WatcherId
    var target: Option<WatcherId>     // Dep.target
    var log: seq<Call>                // every update, in order

    function View(): Vm
      reads this`data, this`proxied, this`keys
    {
      Vm(data, proxied, keys)
    }

    /** The state inside a Watcher constructor, between setting and clearing `Dep.target`. */
    ghost predicate Wf()
      reads this
    {
      && data in heap && Sound(heap, keys.Keys)
      && (target.Some? ==> target.value in keys)
      && (forall w :: w in keys ==> w < nextWatcher)
    }

    /** The state between operations: `Dep.target` is null. */
    ghost predicate Valid()
      reads this
    {
      Wf() && target.None?
    }

    /** `new KVue({data})`, leaving out compilation: observe `$data`, then proxy its keys. */
    constructor (h: Heap, data: ObjId, ghost rank: map<ObjId, nat>)
      requires data in h && Closed(h) && Ranked(h, rank) && NoSubscribers(h)
      ensures Valid()
      ensures heap == Observed(h, rank, false, Ref(data)) && this.data == data
      ensures proxied == h[data].props.Keys && keys == map[] && log == []
    {
      heap := h;
      this.data := data;
      proxied := {};
      keys := map[];
      nextWatcher := 0;
      target := None;
      log := [];
      new;
      NoSubscribersSound(h, {});
      assert keys.Keys == {};
      Observe(Ref(data), rank);
      Proxy();
    }

    /** Reading `obj[key]` (kvue.js:12-18). */
    method Get(o: ObjId, k: Key) returns (v: Value)
      requires Wf()
      modifies this`heap
      ensures Wf()
      ensures (heap, v) == Read(old(heap), target, o, k)
    {
      ReadEffect(heap, target, o, k);
      ReadStepKeeps(heap, Read(heap, target, o, k).0, Targets(target), keys.Keys);
      if o in heap && k in heap[o].props {
        var prop := heap[o].props[k];
        if prop.Slot? {
          if target.Some? {
            heap := Store(heap, o, k, prop.(dep := AddDep(prop.dep, target.value)));
          }
          v := prop.val;
        } else {
          v := prop.v;
        }
      } else {
        v := Undefined;
      }
    }

    /** Reading `vm[key]`. */
    method VmGet(key: Key) returns (v: Value)
      requires Wf()
      modifies this`heap
      ensures Wf()
      ensures (heap, v) == VmRead(old(heap), target, View(), key)
    {
      if key in proxied {
        v := Get(data, key);
      } else {
        v := Undefined;
      }
    }

    /** `new Watcher(vm, key, fn)` (kvue.js:220-229): with `Dep.target` set to the new watcher,
        read `vm[key]` once, then set `Dep.target` to null. */
    method NewWatcher(key: Key) returns (w: WatcherId)
      requires Valid()
      modifies this`keys, this`nextWatcher, this`target, this`heap
      ensures Valid() && w !in old(keys) && keys == old(keys)[w := key]
      ensures heap == VmRead(old(heap), Some(w), View(), key).0
    {
      w := nextWatcher;
      nextWatcher := nextWatcher + 1;
      keys := keys[w := key];
      assert Sound(heap, keys.Keys) by {
        assert DepsIn(heap, old(keys).Keys);
      }
      target := Some(w);
      var _ := VmGet(key);
      target := None;
    }

    /** `watcher.update()` (kvue.js:231-233): `fn` receives the current `vm[key]`; `Dep.target`
        is left alone, and being null it makes the read subscribe no one. */
    method Update(w: WatcherId)
      requires Valid() && w in keys
      modifies this`heap, this`log
      ensures Valid() && heap == old(heap)
      ensures log == old(log) + [Call(w, VmValue(heap, View(), keys[w]))]
    {
      var v := VmGet(keys[w]);
      log := log + [Call(w, v)];
    }

    /** `dep.notify()` (kvue.js:211-213). */
    method Notify(ws: seq<WatcherId>)
      requires Valid() && forall i :: 0 <= i < |ws| ==> ws[i] in keys
      modifies this`heap, this`log
      ensures Valid() && heap == old(heap)
      ensures log == old(log) + Notified(heap, View(), ws)
    {
      var i := 0;
      while i < |ws|
        invariant 0 <= i <= |ws| && Valid() && heap == old(heap)
        invariant log + Notified(heap, View(), ws[i..]) == old(log) + Notified(heap, View(), ws)
      {
        assert ws[i..][1..] == ws[i + 1..];
        ghost var later := Notified(heap, View(), ws[i + 1..]);
        ghost var before := log;
        Update(ws[i]);
        assert log + later == before + ([Call(ws[i], VmValue(heap, View(), keys[ws[i]]))] + later);
        i := i + 1;
      }
      assert ws[i..] == [];
    }

    /** `observe` (kvue.js:37-44). */
    method Observe(v: Value, ghost rank: map<ObjId, nat>)
      requires Valid() && Ranked(heap, rank) && (v.Ref? ==> v.id in heap)
      modifies this`heap
      ensures Valid() && heap == Observed(old(heap), rank, false, v)
      decreases Depth(rank, v), 2
    {
      if IsObject(v) {
        NewObserver(v.id, rank);
      } else {
        ObservedNothing(heap, rank, false, v);
      }
    }

    /** `new Observer(value)` (kvue.js:63-71): nothing for an array, `walk` otherwise. */
    method NewObserver(o: ObjId, ghost rank: map<ObjId, nat>)
      requires Valid() && Ranked(heap, rank) && o in heap
      modifies this`heap
      ensures Valid() && heap == Observed(old(heap), rank, false, Ref(o))
      decreases Depth(rank, Ref(o)), 1
    {
      if heap[o].isArray {
        ObservedNothing(heap, rank, false, Ref(o));
      } else {
        Walk(o, rank);
      }
    }

    /** `walk(obj)` (kvue.js:74-78): `defineReactive` on every own key. */
    method Walk(o: ObjId, ghost rank: map<ObjId, nat>)
      requires Valid() && Ranked(heap, rank) && o in heap && !heap[o].isArray
      modifies this`heap
      ensures Valid() && heap == Observed(old(heap), rank, false, Ref(o))
      decreases Depth(rank, Ref(o)), 0
    {
      ghost var h0 := heap;
      var todo := heap[o].props.Keys;
      ghost var done: set<Key> := {};
      WalkStart(h0, rank, false, o);
      while todo != {}
        invariant todo !! done && todo + done == h0[o].props.Keys
        invariant Valid() && heap == WalkedSoFar(h0, rank, false, o, done)
        decreases todo
      {
        var k :| k in todo;
        WalkStep(h0, rank, false, o, done, k);
        var val := ValueAt(heap, o, k);  // obj[key], read while Dep.target is null
        DefineReactive(o, k, val, rank);
        todo := todo - {k};
        done := done + {k};
      }
      WalkDone(h0, rank, false, o);
    }

    /** `defineReactive(obj, key, val)` (kvue.js:4-31): observe `val`, then install the
        accessor pair with a fresh Dep. */
    method DefineReactive(o: ObjId, k: Key, val: Value, ghost rank: map<ObjId, nat>)
      requires Valid() && Ranked(heap, rank) && o in heap && (val.Ref? ==> val.id in heap)
      modifies this`heap
      ensures Valid() && heap == Install(Observed(old(heap), rank, false, val), o, k, val)
      decreases Depth(rank, val), 3
    {
      Observe(val, rank);
      StoreKeepsSound(heap, o, k, Slot(val, []), keys.Keys);
      heap := Install(heap, o, k, val);
    }

    /** `set(obj, key, val)` (kvue.js:33-35). */
    method Set(o: ObjId, k: Key, val: Value, ghost rank: map<ObjId, nat>)
      requires Valid() && Ranked(heap, rank) && o in heap && (val.Ref? ==> val.id in heap)
      modifies this`heap
      ensures Valid() && heap == Install(Observed(old(heap), rank, false, val), o, k, val)
    {
      DefineReactive(o, k, val, rank);
    }

    /** `obj[key] = newVal`. */
    method Assign(o: ObjId, k: Key, newVal: Value, ghost rank: map<ObjId, nat>)
      requires Valid() && o in heap && (newVal.Ref? ==> newVal.id in heap)
      requires Ranked(heap, rank) && !Walks(heap, rank, false, newVal, o)
      modifies this`heap, this`log
      ensures Valid()
      ensures heap == Written(old(heap), View(), rank, o, k, newVal).0
      ensures log == old(log) + Written(old(heap), View(), rank, o, k, newVal).1
    {
      if IsSlot(heap, o, k) {
        var slot := heap[o].props[k];
        if newVal != slot.val {
          ghost var h0 := heap;
          assert slot.dep == DepAt(h0, o, k);
          Observe(newVal, rank);
          ObservedInstalls(h0, rank, false, newVal, o, k);
          StoreKeepsSound(heap, o, k, slot.(val := newVal), keys.Keys);
          heap := Store(heap, o, k, slot.(val := newVal));
          Notify(slot.dep);
        }
      } else {
        StoreKeepsSound(heap, o, k, Plain(newVal), keys.Keys);
        heap := Store(heap, o, k, Plain(newVal));
      }
    }

    /** `vm[key] = val` for a key `proxy` forwarded: `vm.$data[key] = val` (kvue.js:54-56). */
    method VmAssign(key: Key, val: Value, ghost rank: map<ObjId, nat>)
      requires Valid() && key in proxied && (val.Ref? ==> val.id in heap)
      requires Ranked(heap, rank) && !Walks(heap, rank, false, val, data)
      modifies this`heap, this`log
      ensures Valid()
      ensures heap == Written(old(heap), View(), rank, data, key, val).0
      ensures log == old(log) + Written(old(heap), View(), rank, data, key, val).1
    {
      Assign(data, key, val, rank);
    }

    /** `proxy(vm)` (kvue.js:46-59): forward every key `$data` has now. */
    method Proxy()
      requires Valid()
      modifies this`proxied
      ensures Valid() && proxied == old(proxied) + heap[data].props.Keys
    {
      var todo := heap[data].props.Keys;
      while todo != {}
        invariant Valid() && todo <= heap[data].props.Keys
        invariant proxied + todo == old(proxied) + heap[data].props.Keys
        decreases todo
      {
        var k :| k in todo;
        proxied := proxied + {k};
        todo := todo - {k};
      }
    }
  }
}
