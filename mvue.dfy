/** mvue/mvue.js: getter/setter reactivity with list-backed `Dep`s and key-bound watchers, like
    kvue/kvue.js, but its `Observer` makes only the top-level keys of one object reactive, and
    its setter never observes the value it stores. Its `Dep.attach`/`notify` and `Watcher` behave
    as kvue's `Dep.addDep`/`notify` and `Watcher`, so the read and notify functions of the `Kvue`
    module specify them here too. */
module Mvue {
  import opened JsValues
  import opened ClosureHeap
  import Kvue

  /** `new Observer(obj)` (mvue.js:53-59): for a non-array object, `traverse` re-installs each own
      key as a slot holding its current value with a fresh Dep; `traverseArray` installs nothing. */
  function Traversed(h: Heap, o: ObjId): (r: Heap)
    requires o in h
    ensures r.Keys == h.Keys
  {
    if h[o].isArray then h else h[o := ResetObj(h[o])]
  }

  /** Only the top level is made reactive: the traversed object's own keys become slots with the
      values they had and no subscriber, and every other object, including the ones its values
      refer to, is left as it was. */
  lemma TraverseTopLevelOnly(h: Heap, o: ObjId)
    requires o in h && !h[o].isArray
    ensures var r := Traversed(h, o);
      && (forall k :: k in h[o].props ==> IsSlot(r, o, k) && ValueAt(r, o, k) == ValueAt(h, o, k) && DepAt(r, o, k) == [])
      && (forall p :: p in h && p != o ==> r[p] == h[p])
      && SameValues(h, r)
  {
    var r := Traversed(h, o);
    assert forall p, k :: ValueAt(r, p, k) == ValueAt(h, p, k);
  }

  lemma TraverseArrayNothing(h: Heap, a: ObjId)
    requires a in h && h[a].isArray
    ensures Traversed(h, a) == h
  {
  }

  /** `obj[key] = newVal`: through the setter of mvue.js:79-85 when the key is reactive (skip an
      equal value; otherwise store it and notify the Dep, without observing it); a plain data
      write otherwise. */
  function Written(h: Heap, vm: Kvue.Vm, o: ObjId, k: Key, newVal: Value): (r: (Heap, seq<Kvue.Call>))
    requires o in h && DepsIn(h, vm.keys.Keys)
    ensures |r.1| == if IsSlot(h, o, k) && newVal != ValueAt(h, o, k) then |DepAt(h, o, k)| else 0
  {
    if IsSlot(h, o, k) then
      var slot := h[o].props[k];
      if newVal == slot.val then (h, [])
      else
        assert forall i :: 0 <= i < |slot.dep| ==> slot.dep[i] in DepAt(h, o, k);
        var h2 := Store(h, o, k, slot.(val := newVal));
        (h2, Kvue.Notified(h2, vm, slot.dep))
    else
      (Store(h, o, k, Plain(newVal)), [])
  }

  /** What one write does. An equal value changes nothing and notifies nobody. A different value
      is stored with the slot's Dep kept, and there is one update per Dep entry, in order, each
      seeing the new value. Nothing else in the heap changes: a new object value is not made
      reactive. */
  lemma WriteSemantics(h: Heap, vm: Kvue.Vm, o: ObjId, k: Key, newVal: Value)
    requires o in h && DepsIn(h, vm.keys.Keys)
    ensures var r := Written(h, vm, o, k, newVal);
      && (IsSlot(h, o, k) && newVal == ValueAt(h, o, k) ==> r == (h, []))
      && (IsSlot(h, o, k) && newVal != ValueAt(h, o, k) ==>
            && IsSlot(r.0, o, k) && ValueAt(r.0, o, k) == newVal && DepAt(r.0, o, k) == DepAt(h, o, k)
            && |r.1| == |DepAt(h, o, k)|
            && (forall i :: 0 <= i < |r.1| ==>
                  r.1[i] == Kvue.Call(DepAt(h, o, k)[i], Kvue.VmValue(r.0, vm, vm.keys[DepAt(h, o, k)[i]]))))
      && (!IsSlot(h, o, k) ==> r.1 == [] && ValueAt(r.0, o, k) == newVal && !IsSlot(r.0, o, k))
      && (forall p, j :: p != o || j != k ==> ValueAt(r.0, p, j) == ValueAt(h, p, j) && IsSlot(r.0, p, j) == IsSlot(h, p, j))
      && (forall p :: p in h && p != o ==> r.0[p] == h[p])
  {
    if IsSlot(h, o, k) && newVal != ValueAt(h, o, k) {
      var slot := h[o].props[k];
      var h2 := Store(h, o, k, slot.(val := newVal));
      assert forall i :: 0 <= i < |slot.dep| ==> slot.dep[i] in DepAt(h, o, k);
      forall i | 0 <= i < |slot.dep|
        ensures Kvue.Notified(h2, vm, slot.dep)[i] == Kvue.Call(slot.dep[i], Kvue.VmValue(h2, vm, vm.keys[slot.dep[i]]))
      {
        Kvue.NotifiedAt(h2, vm, slot.dep, i);
      }
    }
  }

  /** A watcher attached k times is updated k times by one write. */
  lemma WriteUpdatesPerEntry(h: Heap, vm: Kvue.Vm, o: ObjId, k: Key, newVal: Value, w: WatcherId)
    requires o in h && DepsIn(h, vm.keys.Keys)
    requires IsSlot(h, o, k) && newVal != ValueAt(h, o, k)
    ensures Kvue.CallsTo(w, Written(h, vm, o, k, newVal).1) == Count(w, DepAt(h, o, k))
  {
    var slot := h[o].props[k];
    assert forall i :: 0 <= i < |slot.dep| ==> slot.dep[i] in DepAt(h, o, k);
    Kvue.NotifiedCounts(Store(h, o, k, slot.(val := newVal)), vm, slot.dep, w);
  }

  /** An `MVue` instance together with the global `Dep.target`. */
  class MVue {
    var heap: Heap
    var data: ObjId                   // this.$data
    var proxied: set<Key>             // the keys proxy() forwarded
    var keys: map<WatcherId, Key>     // the key each Watcher is bound to
    var nextWatcher: WatcherId
    var target: Option<WatcherId>     // Dep.target
    var log: seq<Kvue.Call>           // every update, in order

    function View(): Kvue.Vm
      reads this`data, this`proxied, this`keys
    {
      Kvue.Vm(data, proxied, keys)
    }

    /** The state inside a Watcher constructor, between setting and clearing `Dep.target`. */
    ghost predicate Wf()
      reads this
    {
      && data in heap && Sound(heap, keys.Keys)
      && (target.Some? ==> target.value in keys)
      && (forall w :: w in keys ==> w < nextWatcher)
    }

    /** The state between operations: `Dep.target` is null. */
    ghost predicate Valid()
      reads this
    {
      Wf() && target.None?
    }

    /** `new MVue({el, data})` (mvue.js:11-21), leaving out compilation. */
    constructor (h: Heap, data: ObjId)
      requires data in h && Closed(h) && NoSubscribers(h)
      ensures Valid()
      ensures heap == Traversed(h, data) && this.data == data
      ensures proxied == h[data].props.Keys && keys == map[] && log == []
    {
      heap := h;
      this.data := data;
      proxied := {};
      keys := map[];
      nextWatcher := 0;
      target := None;
      log := [];
      new;
      NoSubscribersSound(h, {});
      assert keys.Keys == {};
      Observe(Ref(data));
      Proxy();
    }

    /** `MVue.observe` (mvue.js:23-29): a primitive is returned untouched. */
    method Observe(v: Value)
      requires Valid() && (v.Ref? ==> v.id in heap)
      modifies this`heap
      ensures Valid() && heap == (if v.Ref? then Traversed(old(heap), v.id) else old(heap))
    {
      if IsObject(v) {
        NewObserver(v.id);
      }
    }

    /** `new Observer(value)` (mvue.js:53-59). */
    method NewObserver(o: ObjId)
      requires Valid() && o in heap
      modifies this`heap
      ensures Valid() && heap == Traversed(old(heap), o)
    {
      if heap[o].isArray {
        // traverseArray (mvue.js:65-67) only logs
      } else {
        Traverse(o);
      }
    }

    /** `traverse(obj)` (mvue.js:61-63): `defineReactive` on every own key, nothing deeper. */
    method Traverse(o: ObjId)
      requires Valid() && o in heap && !heap[o].isArray
      modifies this`heap
      ensures Valid() && heap == Traversed(old(heap), o)
    {
      ghost var h0 := heap;
      var todo := heap[o].props.Keys;
      ghost var done: set<Key> := {};
      assert PartialReset(h0[o], {}).props == h0[o].props;
      while todo != {}
        invariant todo !! done && todo + done == h0[o].props.Keys
        invariant Valid() && heap == h0[o := PartialReset(h0[o], done)]
        decreases todo
      {
        var k :| k in todo;
        var val := ValueAt(heap, o, k);  // obj[key], read while Dep.target is null
        assert val == ValueAt(h0, o, k);
        DefineReactive(o, k, val);
        assert PartialReset(h0[o], done + {k}) == PartialReset(h0[o], done).(props := PartialReset(h0[o], done).props[k := Slot(val, [])]);
        todo := todo - {k};
        done := done + {k};
      }
      assert PartialReset(h0[o], done) == ResetObj(h0[o]);
    }

    /** `Observer.defineReactive(obj, key, val)` (mvue.js:69-87): install the accessor pair with a
        fresh Dep; `val` is not observed. */
    method DefineReactive(o: ObjId, k: Key, val: Value)
      requires Valid() && o in heap && (val.Ref? ==> val.id in heap)
      modifies this`heap
      ensures Valid() && heap == Install(old(heap), o, k, val)
    {
      StoreKeepsSound(heap, o, k, Slot(val, []), keys.Keys);
      heap := Install(heap, o, k, val);
    }

    /** Reading `obj[key]` (mvue.js:74-78). */
    method Get(o: ObjId, k: Key) returns (v: Value)
      requires Wf()
      modifies this`heap
      ensures Wf()
      ensures (heap, v) == Kvue.Read(old(heap), target, o, k)
    {
      Kvue.ReadEffect(heap, target, o, k);
      ReadStepKeeps(heap, Kvue.Read(heap, target, o, k).0, Targets(target), keys.Keys);
      if o in heap && k in heap[o].props {
        var prop := heap[o].props[k];
        if prop.Slot? {
          if target.Some? {
            heap := Store(heap, o, k, prop.(dep := prop.dep + [target.value]));
          }
          v := prop.val;
        } else {
          v := prop.v;
        }
      } else {
        v := Undefined;
      }
    }

    /** Reading `vm[key]` through the accessor of `MVue.proxy` (mvue.js:34-36). */
    method VmGet(key: Key) returns (v: Value)
      requires Wf()
      modifies this`heap
      ensures Wf()
      ensures (heap, v) == Kvue.VmRead(old(heap), target, View(), key)
    {
      if key in proxied {
        v := Get(data, key);
      } else {
        v := Undefined;
      }
    }

    /** `new Watcher(vm, key, fn)` (mvue.js:122-131). */
    method NewWatcher(key: Key) returns (w: WatcherId)
      requires Valid()
      modifies this`keys, this`nextWatcher, this`target, this`heap
      ensures Valid() && w !in old(keys) && keys == old(keys)[w := key]
      ensures heap == Kvue.VmRead(old(heap), Some(w), View(), key).0
    {
      w := nextWatcher;
      nextWatcher := nextWatcher + 1;
      keys := keys[w := key];
      assert Sound(heap, keys.Keys) by {
        assert DepsIn(heap, old(keys).Keys);
      }
      target := Some(w);
      var _ := VmGet(key);
      target := None;
    }

    /** `watcher.update()` (mvue.js:133-135). */
    method Update(w: WatcherId)
      requires Valid() && w in keys
      modifies this`heap, this`log
      ensures Valid() && heap == old(heap)
      ensures log == old(log) + [Kvue.Call(w, Kvue.VmValue(heap, View(), keys[w]))]
    {
      var v := VmGet(keys[w]);
      log := log + [Kvue.Call(w, v)];
    }

    /** `dep.notify()` (mvue.js:107-109). */
    method Notify(ws: seq<WatcherId>)
      requires Valid() && forall i :: 0 <= i < |ws| ==> ws[i] in keys
      modifies this`heap, this`log
      ensures Valid() && heap == old(heap)
      ensures log == old(log) + Kvue.Notified(heap, View(), ws)
    {
      var i := 0;
      while i < |ws|
        invariant 0 <= i <= |ws| && Valid() && heap == old(heap)
        invariant log + Kvue.Notified(heap, View(), ws[i..]) == old(log) + Kvue.Notified(heap, View(), ws)
      {
        assert ws[i..][1..] == ws[i + 1..];
        ghost var later := Kvue.Notified(heap, View(), ws[i + 1..]);
        ghost var before := log;
        Update(ws[i]);
        assert log + later == before + ([Kvue.Call(ws[i], Kvue.VmValue(heap, View(), keys[ws[i]]))] + later);
        i := i + 1;
      }
      assert ws[i..] == [];
    }

    /** `obj[key] = newVal`. */
    method Assign(o: ObjId, k: Key, newVal: Value)
      requires Valid() && o in heap && (newVal.Ref? ==> newVal.id in heap)
      modifies this`heap, this`log
      ensures Valid()
      ensures heap == Written(old(heap), View(), o, k, newVal).0
      ensures log == old(log) + Written(old(heap), View(), o, k, newVal).1
    {
      if IsSlot(heap, o, k) {
        var slot := heap[o].props[k];
        if newVal != slot.val {
          assert slot.dep == DepAt(heap, o, k);
          StoreKeepsSound(heap, o, k, slot.(val := newVal), keys.Keys);
          heap := Store(heap, o, k, slot.(val := newVal));
          Notify(slot.dep);
        }
      } else {
        StoreKeepsSound(heap, o, k, Plain(newVal), keys.Keys);
        heap := Store(heap, o, k, Plain(newVal));
      }
    }

    /** `vm[key] = newVal` for a key `proxy` forwarded (mvue.js:37-39). */
    method VmAssign(key: Key, val: Value)
      requires Valid() && key in proxied && (val.Ref? ==> val.id in heap)
      modifies this`heap, this`log
      ensures Valid()
      ensures heap == Written(old(heap), View(), data, key, val).0
      ensures log == old(log) + Written(old(heap), View(), data, key, val).1
    {
      Assign(data, key, val);
    }

    /** `MVue.proxy(vm)` (mvue.js:31-41): forward every key `$data` has now. */
    method Proxy()
      requires Valid()
      modifies this`proxied
      ensures Valid() && proxied == old(proxied) + heap[data].props.Keys
    {
      var todo := heap[data].props.Keys;
      while todo != {}
        invariant Valid() && todo <= heap[data].props.Keys
        invariant proxied + todo == old(proxied) + heap[data].props.Keys
        decreases todo
      {
        var k :| k in todo;
        proxied := proxied + {k};
        todo := todo - {k};
      }
    }
  }
}
