/** kvue2/kvue2.js: getter/setter reactivity whose `Dep` is a `Set` and whose `Watcher` re-runs
    its whole getter on every update, re-collecting its dependencies. `observe` has no array
    case, so an array's index keys are walked like any object's keys. */
module Kvue2 {
  import opened JsValues
  import opened ClosureHeap

  /** One read a watcher's getter performs: `vm[key]` (forwarded by `proxy` to `$data[key]`)
      followed by property reads down `rest`, as a render function reads `this.a.b`. */
  datatype Path = Path(key: Key, rest: seq<Key>)

  /** One execution of a watcher's getter, with the values its reads yielded. */
  datatype Run = Run(watcher: WatcherId, seen: seq<Value>)

  /** What the reads of a getter depend on besides the heap: `vm.$data`, the keys `proxy`
      forwarded, and each watcher's getter. */
  datatype Vm = Vm(data: ObjId, proxied: set<Key>, getters: map<WatcherId, seq<Path>>)

  /** Every Dep holds each watcher at most once. */
  ghost predicate DepsAreSets(h: Heap)
  {
    forall o, k :: IsSlot(h, o, k) ==> NoDup(DepAt(h, o, k))
  }

  /** The heap invariant of an instance whose watchers are `ws`. */
  ghost predicate HeapOk(h: Heap, ws: set<WatcherId>)
  {
    Sound(h, ws) && DepsAreSets(h)
  }

  /** Re-installing slots with empty Deps keeps the invariant. */
  lemma ResetKeepsOk(h: Heap, h': Heap, ws: set<WatcherId>)
    requires HeapOk(h, ws) && SameValues(h, h') && DepsFromOrEmpty(h, h')
    ensures HeapOk(h', ws)
  {
    ResetKeepsSound(h, h', ws);
    forall o, k | IsSlot(h', o, k) ensures NoDup(DepAt(h', o, k)) {
      if DepAt(h', o, k) != [] {
        assert DepAt(h', o, k) == DepAt(h, o, k) && IsSlot(h, o, k);
      }
    }
  }

  /** Storing a property whose Dep (if any) is a set of known watchers keeps the invariant. */
  lemma StoreKeepsOk(h: Heap, o: ObjId, k: Key, p: Prop, ws: set<WatcherId>)
    requires HeapOk(h, ws) && o in h && (p.Current().Ref? ==> p.Current().id in h)
    requires p.Slot? ==> NoDup(p.dep) && forall x :: x in p.dep ==> x in ws
    ensures HeapOk(Store(h, o, k, p), ws)
  {
    StoreKeepsSound(h, o, k, p, ws);
    var r := Store(h, o, k, p);
    assert DepAt(r, o, k) == (if p.Slot? then p.dep else []);
    forall q, j | IsSlot(r, q, j) ensures NoDup(DepAt(r, q, j)) {
      if q != o || j != k {
        assert DepAt(r, q, j) == DepAt(h, q, j) && IsSlot(h, q, j);
      }
    }
  }

  // ---------------------------------------------------------------------------------------
  // Dep (kvue2.js:244-259)

  /** `Dep.addDep`: `Set.prototype.add` keeps insertion order and ignores a member already there. */
  function AddDep(dep: seq<WatcherId>, w: WatcherId): (r: seq<WatcherId>)
    ensures w in r && forall x :: x in r <==> x in dep || x == w
    ensures |r| == (if w in dep then |dep| else |dep| + 1) && r[..|dep|] == dep
    ensures NoDup(dep) ==> NoDup(r)
  {
    if w in dep then dep else dep + [w]
  }

  lemma AddDepIdempotent(dep: seq<WatcherId>, w: WatcherId)
    ensures AddDep(AddDep(dep, w), w) == AddDep(dep, w)
  {
  }

  // ---------------------------------------------------------------------------------------
  // Reads

  /** Only the Deps of the slots among `touched` may differ between `h` and `h'`. */
  ghost predicate DepsOnlyAt(h: Heap, h': Heap, touched: seq<(ObjId, Key)>)
  {
    forall p: ObjId, j: Key :: (p, j) !in touched ==> DepAt(h', p, j) == DepAt(h, p, j)
  }

  lemma DepsOnlyAtTrans(h1: Heap, h2: Heap, h3: Heap, a: seq<(ObjId, Key)>, b: seq<(ObjId, Key)>)
    requires DepsOnlyAt(h1, h2, a) && DepsOnlyAt(h2, h3, b)
    ensures DepsOnlyAt(h1, h3, a + b)
  {
    forall p: ObjId, j: Key | (p, j) !in a + b
      ensures DepAt(h3, p, j) == DepAt(h1, p, j)
    {
      assert (p, j) !in a && (p, j) !in b;
    }
  }

  /** Every slot whose Dep already holds `w` keeps that Dep exactly: `Set.add` of a member. */
  ghost predicate KeepsHolding(h: Heap, h': Heap, w: WatcherId)
  {
    forall p, j :: w in DepAt(h, p, j) ==> DepAt(h', p, j) == DepAt(h, p, j)
  }

  /** `obj[key]`: through the getter of kvue2.js:10-16 when the key is reactive, which adds
      `Dep.target` (when set) to the slot's Dep; a plain read otherwise. */
  function Read(h: Heap, target: Option<WatcherId>, o: ObjId, k: Key): (r: (Heap, Value))
    ensures r.1 == ValueAt(h, o, k)
    ensures target.None? || !IsSlot(h, o, k) ==> r.0 == h
  {
    if target.Some? && IsSlot(h, o, k) then
      var slot := h[o].props[k];
      (Store(h, o, k, slot.(dep := AddDep(slot.dep, target.value))), slot.val)
    else
      (h, ValueAt(h, o, k))
  }

  /** A read changes only the read slot's Dep, which gains the reading watcher. */
  lemma ReadEffect(h: Heap, target: Option<WatcherId>, o: ObjId, k: Key)
    ensures var r := Read(h, target, o, k).0;
      && ReadStep(h, r, Targets(target))
      && (DepsAreSets(h) ==> DepsAreSets(r))
      && (target.Some? && IsSlot(h, o, k) ==> DepAt(r, o, k) == AddDep(DepAt(h, o, k), target.value))
      && (forall p, j :: p != o || j != k ==> DepAt(r, p, j) == DepAt(h, p, j))
      && (target.Some? ==> KeepsHolding(h, r, target.value))
  {
    if target.Some? && IsSlot(h, o, k) {
      var r := Read(h, target, o, k).0;
      SubscribeStep(h, o, k, AddDep(DepAt(h, o, k), target.value), target.value);
      assert DepAt(r, o, k) == AddDep(DepAt(h, o, k), target.value);
    } else {
      ReadStepRefl(h, Targets(target));
    }
  }

  /** The value `v.k1.k2...` denotes. Reading a property of a primitive or of `undefined` is cut
      short to `undefined`. */
  function PathValue(h: Heap, v: Value, keys: seq<Key>): Value
    decreases |keys|
  {
    if keys == [] then v
    else if !v.Ref? then Undefined
    else PathValue(h, ValueAt(h, v.id, keys[0]), keys[1..])
  }

  /** The (object, key) pairs that reading `v.k1.k2...` goes through, in order. */
  function PathReads(h: Heap, v: Value, keys: seq<Key>): seq<(ObjId, Key)>
    decreases |keys|
  {
    if keys == [] || !v.Ref? then []
    else [(v.id, keys[0])] + PathReads(h, ValueAt(h, v.id, keys[0]), keys[1..])
  }

  lemma {:induction false} PathSameValues(h: Heap, h': Heap, v: Value, keys: seq<Key>)
    requires SameValues(h, h')
    ensures PathValue(h, v, keys) == PathValue(h', v, keys)
    ensures PathReads(h, v, keys) == PathReads(h', v, keys)
    decreases |keys|
  {
    if keys != [] && v.Ref? {
      assert ValueAt(h, v.id, keys[0]) == ValueAt(h', v.id, keys[0]);
      PathSameValues(h, h', ValueAt(h, v.id, keys[0]), keys[1..]);
    }
  }

  /** `w` is in the Dep of every reactive slot among `path`. */
  ghost predicate Subscribed(h: Heap, w: WatcherId, path: seq<(ObjId, Key)>)
  {
    forall i :: 0 <= i < |path| && IsSlot(h, path[i].0, path[i].1) ==> w in DepAt(h, path[i].0, path[i].1)
  }

  lemma SubscribedCons(h: Heap, w: WatcherId, x: (ObjId, Key), rest: seq<(ObjId, Key)>)
    requires IsSlot(h, x.0, x.1) ==> w in DepAt(h, x.0, x.1)
    requires Subscribed(h, w, rest)
    ensures Subscribed(h, w, [x] + rest)
  {
    forall i | 0 <= i < |[x] + rest| && IsSlot(h, ([x] + rest)[i].0, ([x] + rest)[i].1)
      ensures w in DepAt(h, ([x] + rest)[i].0, ([x] + rest)[i].1)
    {
      if i > 0 {
        assert ([x] + rest)[i] == rest[i - 1];
      }
    }
  }

  lemma SubscribedGrow(h: Heap, h': Heap, w: WatcherId, path: seq<(ObjId, Key)>)
    requires DepsGrow(h, h') && Subscribed(h, w, path)
    ensures Subscribed(h', w, path)
  {
    forall i | 0 <= i < |path| && IsSlot(h', path[i].0, path[i].1)
      ensures w in DepAt(h', path[i].0, path[i].1)
    {
      assert IsSlot(h, path[i].0, path[i].1);
    }
  }

  /** Reading `v.k1.k2...` one getter at a time. */
  function ReadPath(h: Heap, target: Option<WatcherId>, v: Value, keys: seq<Key>): (r: (Heap, Value))
    ensures r.1 == PathValue(h, v, keys)
    ensures target.None? ==> r.0 == h
    decreases |keys|
  {
    if keys == [] || !v.Ref? then (h, PathValue(h, v, keys))
    else
      var r1 := Read(h, target, v.id, keys[0]);
      ReadEffect(h, target, v.id, keys[0]);
      PathSameValues(h, r1.0, r1.1, keys[1..]);
      ReadPath(r1.0, target, r1.1, keys[1..])
  }

  /** Reading a path subscribes the reader to every reactive slot on it, and does nothing else:
      the Dep of a slot off the path, or of one the reader was already in, is left as it was. */
  lemma {:induction false} ReadPathEffect(h: Heap, target: Option<WatcherId>, v: Value, keys: seq<Key>)
    ensures var r := ReadPath(h, target, v, keys).0;
      && ReadStep(h, r, Targets(target))
      && (DepsAreSets(h) ==> DepsAreSets(r))
      && (target.Some? ==> Subscribed(r, target.value, PathReads(h, v, keys)))
      && DepsOnlyAt(h, r, PathReads(h, v, keys))
      && (target.Some? ==> KeepsHolding(h, r, target.value))
    decreases |keys|
  {
    if keys == [] || !v.Ref? {
      ReadStepRefl(h, Targets(target));
    } else {
      var r1 := Read(h, target, v.id, keys[0]);
      ReadEffect(h, target, v.id, keys[0]);
      ReadPathEffect(r1.0, target, r1.1, keys[1..]);
      var r := ReadPath(r1.0, target, r1.1, keys[1..]).0;
      ReadStepTrans(h, r1.0, r, Targets(target), Targets(target));
      PathSameValues(h, r1.0, r1.1, keys[1..]);
      assert PathReads(h, v, keys) == [(v.id, keys[0])] + PathReads(r1.0, r1.1, keys[1..]);
      assert DepsOnlyAt(h, r1.0, [(v.id, keys[0])]);
      DepsOnlyAtTrans(h, r1.0, r, [(v.id, keys[0])], PathReads(r1.0, r1.1, keys[1..]));
      if target.Some? {
        SubscribedCons(r, target.value, (v.id, keys[0]), PathReads(r1.0, r1.1, keys[1..]));
      }
    }
  }

  /** The value a getter's read of `path` yields: `vm[key]` is `$data[key]` for a key `proxy`
      forwarded; any other key of the instance is `undefined` here. */
  function VmPathValue(h: Heap, vm: Vm, path: Path): Value
  {
    if path.key in vm.proxied then PathValue(h, ValueAt(h, vm.data, path.key), path.rest) else Undefined
  }

  function VmPathReads(h: Heap, vm: Vm, path: Path): seq<(ObjId, Key)>
  {
    if path.key in vm.proxied then [(vm.data, path.key)] + PathReads(h, ValueAt(h, vm.data, path.key), path.rest) else []
  }

  lemma VmPathSameValues(h: Heap, h': Heap, vm: Vm, path: Path)
    requires SameValues(h, h')
    ensures VmPathValue(h, vm, path) == VmPathValue(h', vm, path)
    ensures VmPathReads(h, vm, path) == VmPathReads(h', vm, path)
  {
    assert ValueAt(h, vm.data, path.key) == ValueAt(h', vm.data, path.key);
    PathSameValues(h, h', ValueAt(h, vm.data, path.key), path.rest);
  }

  /** `vm[key]`, through the accessor `proxy` (kvue2.js:39-51) installed, then down `rest`. */
  function ReadVmPath(h: Heap, target: Option<WatcherId>, vm: Vm, path: Path): (r: (Heap, Value))
    ensures r.1 == VmPathValue(h, vm, path)
    ensures target.None? ==> r.0 == h
  {
    if path.key in vm.proxied then
      var r1 := Read(h, target, vm.data, path.key);
      ReadEffect(h, target, vm.data, path.key);
      PathSameValues(h, r1.0, r1.1, path.rest);
      ReadPath(r1.0, target, r1.1, path.rest)
    else (h, Undefined)
  }

  lemma ReadVmPathEffect(h: Heap, target: Option<WatcherId>, vm: Vm, path: Path)
    ensures var r := ReadVmPath(h, target, vm, path).0;
      && ReadStep(h, r, Targets(target))
      && (DepsAreSets(h) ==> DepsAreSets(r))
      && (target.Some? ==> Subscribed(r, target.value, VmPathReads(r, vm, path)))
      && DepsOnlyAt(h, r, VmPathReads(h, vm, path))
      && (target.Some? ==> KeepsHolding(h, r, target.value))
  {
    var r := ReadVmPath(h, target, vm, path).0;
    if path.key in vm.proxied {
      var r1 := Read(h, target, vm.data, path.key);
      ReadEffect(h, target, vm.data, path.key);
      ReadPathEffect(r1.0, target, r1.1, path.rest);
      ReadStepTrans(h, r1.0, r, Targets(target), Targets(target));
      PathSameValues(h, r1.0, r1.1, path.rest);
      assert DepsOnlyAt(h, r1.0, [(vm.data, path.key)]);
      DepsOnlyAtTrans(h, r1.0, r, [(vm.data, path.key)], PathReads(r1.0, r1.1, path.rest));
      if target.Some? {
        SubscribedCons(r, target.value, (vm.data, path.key), PathReads(r1.0, r1.1, path.rest));
      }
    } else {
      ReadStepRefl(h, Targets(target));
    }
    VmPathSameValues(h, r, vm, path);
  }

  /** The values a getter's reads yield, one per path. */
  function VmPathValues(h: Heap, vm: Vm, paths: seq<Path>): (r: seq<Value>)
    ensures |r| == |paths|
  {
    if paths == [] then [] else [VmPathValue(h, vm, paths[0])] + VmPathValues(h, vm, paths[1..])
  }

  /** The i-th value a getter sees is what its i-th path denotes. */
  lemma {:induction false} VmPathValuesAt(h: Heap, vm: Vm, paths: seq<Path>, i: nat)
    requires i < |paths|
    ensures VmPathValues(h, vm, paths)[i] == VmPathValue(h, vm, paths[i])
  {
    if i > 0 {
      VmPathValuesAt(h, vm, paths[1..], i - 1);
    }
  }

  lemma {:induction false} VmPathValuesSame(h: Heap, h': Heap, vm: Vm, paths: seq<Path>)
    requires SameValues(h, h')
    ensures VmPathValues(h, vm, paths) == VmPathValues(h', vm, paths)
  {
    if paths != [] {
      VmPathSameValues(h, h', vm, paths[0]);
      VmPathValuesSame(h, h', vm, paths[1..]);
    }
  }

  /** Every (object, key) pair a getter's reads go through, path after path. */
  function GetterReads(h: Heap, vm: Vm, paths: seq<Path>): seq<(ObjId, Key)>
    decreases |paths|
  {
    if paths == [] then [] else VmPathReads(h, vm, paths[0]) + GetterReads(h, vm, paths[1..])
  }

  lemma {:induction false} GetterReadsSame(h: Heap, h': Heap, vm: Vm, paths: seq<Path>)
    requires SameValues(h, h')
    ensures GetterReads(h, vm, paths) == GetterReads(h', vm, paths)
    decreases |paths|
  {
    if paths != [] {
      VmPathSameValues(h, h', vm, paths[0]);
      GetterReadsSame(h, h', vm, paths[1..]);
    }
  }

  /** The reads of a getter, in order (`this.getter.call(this.vm)`). */
  function RunPaths(h: Heap, target: Option<WatcherId>, vm: Vm, paths: seq<Path>): (r: (Heap, seq<Value>))
    ensures r.1 == VmPathValues(h, vm, paths)
    ensures target.None? ==> r.0 == h
    decreases |paths|
  {
    if paths == [] then (h, [])
    else
      var r1 := ReadVmPath(h, target, vm, paths[0]);
      ReadVmPathEffect(h, target, vm, paths[0]);
      VmPathValuesSame(h, r1.0, vm, paths[1..]);
      var r2 := RunPaths(r1.0, target, vm, paths[1..]);
      (r2.0, [r1.1] + r2.1)
  }

  lemma RunPathsUnfold(h: Heap, target: Option<WatcherId>, vm: Vm, paths: seq<Path>, i: nat)
    requires i < |paths|
    ensures var r1 := ReadVmPath(h, target, vm, paths[i]);
      var r2 := RunPaths(r1.0, target, vm, paths[i + 1..]);
      RunPaths(h, target, vm, paths[i..]) == (r2.0, [r1.1] + r2.1)
  {
    assert paths[i..][1..] == paths[i + 1..];
  }

  lemma {:induction false} RunPathsEffect(h: Heap, target: Option<WatcherId>, vm: Vm, paths: seq<Path>)
    ensures var r := RunPaths(h, target, vm, paths).0;
      && ReadStep(h, r, Targets(target))
      && (DepsAreSets(h) ==> DepsAreSets(r))
      && (target.Some? ==> forall i :: 0 <= i < |paths| ==> Subscribed(r, target.value, VmPathReads(r, vm, paths[i])))
      && DepsOnlyAt(h, r, GetterReads(h, vm, paths))
      && (target.Some? ==> KeepsHolding(h, r, target.value))
    decreases |paths|
  {
    if paths == [] {
      ReadStepRefl(h, Targets(target));
    } else {
      var r1 := ReadVmPath(h, target, vm, paths[0]);
      ReadVmPathEffect(h, target, vm, paths[0]);
      RunPathsEffect(r1.0, target, vm, paths[1..]);
      var r := RunPaths(r1.0, target, vm, paths[1..]).0;
      ReadStepTrans(h, r1.0, r, Targets(target), Targets(target));
      GetterReadsSame(h, r1.0, vm, paths[1..]);
      DepsOnlyAtTrans(h, r1.0, r, VmPathReads(h, vm, paths[0]), GetterReads(r1.0, vm, paths[1..]));
      if target.Some? {
        VmPathSameValues(r1.0, r, vm, paths[0]);
        SubscribedGrow(r1.0, r, target.value, VmPathReads(r, vm, paths[0]));
        forall i | 1 <= i < |paths| ensures Subscribed(r, target.value, VmPathReads(r, vm, paths[i])) {
          assert paths[i] == paths[1..][i - 1];
        }
      }
    }
  }

  // ---------------------------------------------------------------------------------------
  // Watcher (kvue2.js:223-242)

  /** `w` is subscribed to every reactive slot its getter reads in `h`. */
  ghost predicate GetterSubscribed(h: Heap, vm: Vm, w: WatcherId)
    requires w in vm.getters
  {
    forall i :: 0 <= i < |vm.getters[w]| ==> Subscribed(h, w, VmPathReads(h, vm, vm.getters[w][i]))
  }

  lemma GetterSubscribedStable(h: Heap, h': Heap, vm: Vm, w: WatcherId)
    requires w in vm.getters
    requires SameValues(h, h') && DepsGrow(h, h') && GetterSubscribed(h, vm, w)
    ensures GetterSubscribed(h', vm, w)
  {
    forall i | 0 <= i < |vm.getters[w]|
      ensures Subscribed(h', w, VmPathReads(h', vm, vm.getters[w][i]))
    {
      VmPathSameValues(h, h', vm, vm.getters[w][i]);
      SubscribedGrow(h, h', w, VmPathReads(h, vm, vm.getters[w][i]));
    }
  }

  /** `Watcher.get`: `Dep.target = this`, run the getter, `Dep.target = null`. */
  function RunGetter(h: Heap, vm: Vm, w: WatcherId): (r: (Heap, Run))
    requires w in vm.getters
    ensures r.1 == Run(w, VmPathValues(h, vm, vm.getters[w]))
  {
    var r := RunPaths(h, Some(w), vm, vm.getters[w]);
    (r.0, Run(w, r.1))
  }

  /** The slots watcher `w`'s getter reads in `h`. */
  function WatcherReads(h: Heap, vm: Vm, w: WatcherId): seq<(ObjId, Key)>
  {
    if w in vm.getters then GetterReads(h, vm, vm.getters[w]) else []
  }

  /** After a run the watcher is subscribed to everything its getter read, and nothing else
      changed: no Dep of a slot the getter did not read, nor one that already held the watcher. */
  lemma RunGetterEffect(h: Heap, vm: Vm, w: WatcherId)
    requires w in vm.getters
    ensures var r := RunGetter(h, vm, w).0;
      && ReadStep(h, r, {w}) && GetterSubscribed(r, vm, w)
      && (DepsAreSets(h) ==> DepsAreSets(r))
      && DepsOnlyAt(h, r, WatcherReads(h, vm, w))
      && KeepsHolding(h, r, w)
  {
    RunPathsEffect(h, Some(w), vm, vm.getters[w]);
  }

  /** `dep.notify()`: `update()`, which is `get()`, on each watcher in turn. */
  function Notified(h: Heap, vm: Vm, ws: seq<WatcherId>): (r: (Heap, seq<Run>))
    requires forall i :: 0 <= i < |ws| ==> ws[i] in vm.getters
    decreases |ws|
  {
    if ws == [] then (h, [])
    else
      var r1 := RunGetter(h, vm, ws[0]);
      var r2 := Notified(r1.0, vm, ws[1..]);
      (r2.0, [r1.1] + r2.1)
  }

  lemma NotifiedUnfold(h: Heap, vm: Vm, ws: seq<WatcherId>, i: nat)
    requires forall j :: 0 <= j < |ws| ==> ws[j] in vm.getters
    requires i < |ws|
    ensures var r1 := RunGetter(h, vm, ws[i]);
      var r2 := Notified(r1.0, vm, ws[i + 1..]);
      Notified(h, vm, ws[i..]) == (r2.0, [r1.1] + r2.1)
  {
    assert ws[i..][1..] == ws[i + 1..];
  }

  /** The Dep facts of one getter run: only slots it read change, and only by gaining `w`. */
  lemma RunGetterDeps(h: Heap, vm: Vm, w: WatcherId)
    requires w in vm.getters
    ensures var r := RunGetter(h, vm, w).0;
      && SameValues(h, r)
      && DepsOnlyAt(h, r, WatcherReads(h, vm, w))
      && KeepsHolding(h, r, w)
      && (forall p: ObjId, j: Key, x: WatcherId :: x in DepAt(r, p, j) && x !in DepAt(h, p, j) ==> x == w)
  {
    RunGetterEffect(h, vm, w);
    var r := RunGetter(h, vm, w).0;
    forall p, j, x | x in DepAt(r, p, j) && x !in DepAt(h, p, j)
      ensures x == w
    {
      ReadStepNew(h, r, {w}, p, j, x);
    }
  }

  lemma NotifiedKeepsValues(h: Heap, vm: Vm, ws: seq<WatcherId>)
    requires forall i :: 0 <= i < |ws| ==> ws[i] in vm.getters
    ensures SameValues(h, Notified(h, vm, ws).0)
    ensures forall p, j :: IsSlot(h, p, j) ==> IsSlot(Notified(h, vm, ws).0, p, j)
  {
    NotifiedEffect(h, vm, ws);
  }

  /** The slots the getters of `ws` read in `h`, watcher after watcher. */
  function NotifiedReads(h: Heap, vm: Vm, ws: seq<WatcherId>): seq<(ObjId, Key)>
    decreases |ws|
  {
    if ws == [] then [] else WatcherReads(h, vm, ws[0]) + NotifiedReads(h, vm, ws[1..])
  }

  lemma {:induction false} NotifiedReadsSame(h: Heap, h': Heap, vm: Vm, ws: seq<WatcherId>)
    requires SameValues(h, h')
    ensures NotifiedReads(h, vm, ws) == NotifiedReads(h', vm, ws)
    ensures forall w :: WatcherReads(h, vm, w) == WatcherReads(h', vm, w)
    decreases |ws|
  {
    forall w ensures WatcherReads(h, vm, w) == WatcherReads(h', vm, w) {
      if w in vm.getters {
        GetterReadsSame(h, h', vm, vm.getters[w]);
      }
    }
    if ws != [] {
      NotifiedReadsSame(h, h', vm, ws[1..]);
    }
  }

  /** Notifying changes no value, so it changes no getter's reads. */
  lemma NotifiedReadsStable(h: Heap, vm: Vm, ws: seq<WatcherId>)
    requires forall i :: 0 <= i < |ws| ==> ws[i] in vm.getters
    ensures NotifiedReads(Notified(h, vm, ws).0, vm, ws) == NotifiedReads(h, vm, ws)
  {
    NotifiedKeepsValues(h, vm, ws);
    NotifiedReadsSame(h, Notified(h, vm, ws).0, vm, ws);
  }

  lemma WatcherReadsStable(h: Heap, vm: Vm, ws: seq<WatcherId>)
    requires forall i :: 0 <= i < |ws| ==> ws[i] in vm.getters
    ensures forall w :: WatcherReads(Notified(h, vm, ws).0, vm, w) == WatcherReads(h, vm, w)
  {
    NotifiedKeepsValues(h, vm, ws);
    NotifiedReadsSame(h, Notified(h, vm, ws).0, vm, ws);
  }

  /** Every watcher of `ws` is in `dep`. */
  ghost predicate HoldsAll(dep: seq<WatcherId>, ws: seq<WatcherId>)
  {
    forall x :: x in ws ==> x in dep
  }

  /** Notifying `ws` changes only the Deps of slots the re-run getters read. */
  lemma {:induction false} NotifiedDepsFrame(h: Heap, vm: Vm, ws: seq<WatcherId>)
    requires forall i :: 0 <= i < |ws| ==> ws[i] in vm.getters
    ensures DepsOnlyAt(h, Notified(h, vm, ws).0, NotifiedReads(h, vm, ws))
    decreases |ws|
  {
    if ws != [] {
      var r1 := RunGetter(h, vm, ws[0]).0;
      RunGetterDeps(h, vm, ws[0]);
      NotifiedDepsFrame(r1, vm, ws[1..]);
      assert Notified(h, vm, ws).0 == Notified(r1, vm, ws[1..]).0;
      NotifiedReadsSame(h, r1, vm, ws[1..]);
      DepsOnlyAtTrans(h, r1, Notified(h, vm, ws).0, WatcherReads(h, vm, ws[0]), NotifiedReads(r1, vm, ws[1..]));
    }
  }

  /** A Dep that already holds every watcher of `ws` is left exactly as it was. */
  lemma {:induction false} NotifiedKeepsFull(h: Heap, vm: Vm, ws: seq<WatcherId>)
    requires forall i :: 0 <= i < |ws| ==> ws[i] in vm.getters
    ensures forall p: ObjId, j: Key :: HoldsAll(DepAt(h, p, j), ws) ==> DepAt(Notified(h, vm, ws).0, p, j) == DepAt(h, p, j)
    decreases |ws|
  {
    if ws != [] {
      var r1 := RunGetter(h, vm, ws[0]).0;
      RunGetterDeps(h, vm, ws[0]);
      NotifiedKeepsFull(r1, vm, ws[1..]);
      var r := Notified(h, vm, ws).0;
      assert r == Notified(r1, vm, ws[1..]).0;
      forall p: ObjId, j: Key | HoldsAll(DepAt(h, p, j), ws)
        ensures DepAt(r, p, j) == DepAt(h, p, j)
      {
        assert ws[0] in ws;
        assert DepAt(r1, p, j) == DepAt(h, p, j);
        assert HoldsAll(DepAt(r1, p, j), ws[1..]);
      }
    }
  }

  /** A watcher joins a Dep in a notification only if it is one of `ws` and its getter read that
      slot. */
  lemma {:induction false} NotifiedGainsRead(h: Heap, vm: Vm, ws: seq<WatcherId>)
    requires forall i :: 0 <= i < |ws| ==> ws[i] in vm.getters
    ensures var r := Notified(h, vm, ws).0;
      forall p: ObjId, j: Key, x: WatcherId :: x in DepAt(r, p, j) && x !in DepAt(h, p, j) ==> x in ws && (p, j) in WatcherReads(h, vm, x)
    decreases |ws|
  {
    if ws != [] {
      var r1 := RunGetter(h, vm, ws[0]).0;
      RunGetterDeps(h, vm, ws[0]);
      NotifiedGainsRead(r1, vm, ws[1..]);
      var r := Notified(h, vm, ws).0;
      assert r == Notified(r1, vm, ws[1..]).0;
      NotifiedReadsSame(h, r1, vm, ws[1..]);
      forall p: ObjId, j: Key, x: WatcherId | x in DepAt(r, p, j) && x !in DepAt(h, p, j)
        ensures x in ws && (p, j) in WatcherReads(h, vm, x)
      {
        if x in DepAt(r1, p, j) {
          assert DepAt(r1, p, j) != DepAt(h, p, j);
          assert (p, j) in WatcherReads(h, vm, ws[0]);
        } else {
          assert x in ws[1..] && (p, j) in WatcherReads(r1, vm, x);
        }
      }
    }
  }

  /** Each notified watcher runs once per entry, in order, all of them seeing the same values
      (getters only read), and each ends up subscribed to what it read. */
  lemma {:induction false} NotifiedEffect(h: Heap, vm: Vm, ws: seq<WatcherId>)
    requires forall i :: 0 <= i < |ws| ==> ws[i] in vm.getters
    ensures var r := Notified(h, vm, ws);
      && ReadStep(h, r.0, vm.getters.Keys)
      && (DepsAreSets(h) ==> DepsAreSets(r.0))
      && |r.1| == |ws|
      && (forall i :: 0 <= i < |ws| ==> r.1[i] == Run(ws[i], VmPathValues(r.0, vm, vm.getters[ws[i]])))
      && (forall i :: 0 <= i < |ws| ==> GetterSubscribed(r.0, vm, ws[i]))
    decreases |ws|
  {
    if ws == [] {
      ReadStepRefl(h, vm.getters.Keys);
    } else {
      var r1 := RunGetter(h, vm, ws[0]);
      RunGetterEffect(h, vm, ws[0]);
      NotifiedEffect(r1.0, vm, ws[1..]);
      var r := Notified(h, vm, ws);
      ReadStepTrans(h, r1.0, r.0, {ws[0]}, vm.getters.Keys);
      GetterSubscribedStable(r1.0, r.0, vm, ws[0]);
      VmPathValuesSame(h, r.0, vm, vm.getters[ws[0]]);
      forall i | 1 <= i < |ws|
        ensures r.1[i] == Run(ws[i], VmPathValues(r.0, vm, vm.getters[ws[i]])) && GetterSubscribed(r.0, vm, ws[i])
      {
        assert ws[i] == ws[1..][i - 1];
      }
    }
  }

  // ---------------------------------------------------------------------------------------
  // Writes

  /** `obj[key] = newVal`: through the setter of kvue2.js:17-25 when the key is reactive (skip an
      equal value; otherwise observe the new value, store it in the closure, notify the Dep);
      a plain data write otherwise. When the new value leads back to the written object, this
      is the intended write: the value lands in the slot the accessor reaches, whereas the code
      as written loses it (`WrittenAsWritten`). */
  ghost function Written(h: Heap, vm: Vm, rank: map<ObjId, nat>, o: ObjId, k: Key, newVal: Value): (r: (Heap, seq<Run>))
    requires Ranked(h, rank) && o in h && DepsIn(h, vm.getters.Keys)
    ensures |r.1| == if IsSlot(h, o, k) && newVal != ValueAt(h, o, k) then |DepAt(h, o, k)| else 0
  {
    if IsSlot(h, o, k) then
      var slot := h[o].props[k];
      if newVal == slot.val then (h, [])
      else
        assert forall i :: 0 <= i < |slot.dep| ==> slot.dep[i] in DepAt(h, o, k);
        var h2 := Store(Observed(h, rank, true, newVal), o, k, slot.(val := newVal));
        NotifiedEffect(h2, vm, slot.dep);
        Notified(h2, vm, slot.dep)
    else
      (Store(h, o, k, Plain(newVal)), [])
  }

  /** What one write does. An equal value changes nothing and notifies nobody. A different value
      is stored, every object it leads to becomes reactive, and each watcher of the slot's Dep
      re-runs once per entry, in insertion order, seeing the new state and re-subscribing to all
      it reads. A non-reactive key is just stored. No other key's value changes. */
  lemma WriteSemantics(h: Heap, vm: Vm, rank: map<ObjId, nat>, o: ObjId, k: Key, newVal: Value)
    requires Ranked(h, rank) && o in h && !Walks(h, rank, true, newVal, o) && DepsIn(h, vm.getters.Keys)
    ensures var r := Written(h, vm, rank, o, k, newVal);
      && (IsSlot(h, o, k) && newVal == ValueAt(h, o, k) ==> r == (h, []))
      && (IsSlot(h, o, k) && newVal != ValueAt(h, o, k) ==>
            && IsSlot(r.0, o, k) && ValueAt(r.0, o, k) == newVal
            && |r.1| == |DepAt(h, o, k)|
            && (forall i :: 0 <= i < |r.1| ==>
                  r.1[i] == Run(DepAt(h, o, k)[i], VmPathValues(r.0, vm, vm.getters[DepAt(h, o, k)[i]]))
                  && GetterSubscribed(r.0, vm, DepAt(h, o, k)[i]))
            && (forall p, j :: Walks(h, rank, true, newVal, p) && p in h && j in h[p].props ==> IsSlot(r.0, p, j)))
      && (IsSlot(h, o, k) ==> DepAt(r.0, o, k) == DepAt(h, o, k))
      && (!IsSlot(h, o, k) ==> r.1 == [] && ValueAt(r.0, o, k) == newVal && !IsSlot(r.0, o, k))
      && (!IsSlot(h, o, k) ==> forall p: ObjId, j: Key :: DepAt(r.0, p, j) == DepAt(h, p, j))
      && (forall p, j :: p != o || j != k ==> ValueAt(r.0, p, j) == ValueAt(h, p, j))
  {
    if IsSlot(h, o, k) && newVal != ValueAt(h, o, k) {
      WriteChanged(h, vm, rank, o, k, newVal);
      WriteKeepsDep(h, vm, rank, o, k, newVal);
    } else if !IsSlot(h, o, k) {
      var r := Written(h, vm, rank, o, k, newVal).0;
      forall p: ObjId, j: Key
        ensures DepAt(r, p, j) == DepAt(h, p, j)
      {
        if p == o && j == k {
          assert !IsSlot(r, p, j);
        }
      }
    }
  }

  lemma WriteChanged(h: Heap, vm: Vm, rank: map<ObjId, nat>, o: ObjId, k: Key, newVal: Value)
    requires Ranked(h, rank) && o in h && !Walks(h, rank, true, newVal, o) && DepsIn(h, vm.getters.Keys)
    requires IsSlot(h, o, k) && newVal != ValueAt(h, o, k)
    ensures var r := Written(h, vm, rank, o, k, newVal);
      && IsSlot(r.0, o, k) && ValueAt(r.0, o, k) == newVal
      && |r.1| == |DepAt(h, o, k)|
      && (forall i :: 0 <= i < |r.1| ==>
            r.1[i] == Run(DepAt(h, o, k)[i], VmPathValues(r.0, vm, vm.getters[DepAt(h, o, k)[i]]))
            && GetterSubscribed(r.0, vm, DepAt(h, o, k)[i]))
      && (forall p, j :: Walks(h, rank, true, newVal, p) && p in h && j in h[p].props ==> IsSlot(r.0, p, j))
      && (forall p, j :: p != o || j != k ==> ValueAt(r.0, p, j) == ValueAt(h, p, j))
  {
    var slot := h[o].props[k];
    var h1 := Observed(h, rank, true, newVal);
    ObservedInstalls(h, rank, true, newVal, o, k);
    var h2 := Store(h1, o, k, slot.(val := newVal));
    assert forall i :: 0 <= i < |slot.dep| ==> slot.dep[i] in DepAt(h, o, k);
    NotifiedEffect(h2, vm, slot.dep);
    var r := Written(h, vm, rank, o, k, newVal);
    assert r == Notified(h2, vm, slot.dep);
    assert IsSlot(h2, o, k) && ValueAt(h2, o, k) == newVal;
    forall p, j | Walks(h, rank, true, newVal, p) && p in h && j in h[p].props
      ensures IsSlot(r.0, p, j)
    {
      ObservedInstalls(h, rank, true, newVal, p, j);
      assert IsSlot(h2, p, j);
    }
    forall p, j | p != o || j != k
      ensures ValueAt(r.0, p, j) == ValueAt(h, p, j)
    {
      assert ValueAt(h2, p, j) == ValueAt(h1, p, j);
    }
  }

  /** The setter as written, also when the new value leads back to the written object. Then
      `observe(newVal)` walks that object too and re-installs the written key with a new closure
      holding the old value; `val = newVal` assigns the old closure, which no accessor reaches any
      more, and `dep.notify()` re-runs the old Dep's watchers. */
  ghost function WrittenAsWritten(h: Heap, vm: Vm, rank: map<ObjId, nat>, o: ObjId, k: Key, newVal: Value): (r: (Heap, seq<Run>))
    requires Ranked(h, rank) && o in h && DepsIn(h, vm.getters.Keys)
    ensures !Walks(h, rank, true, newVal, o) ==> r == Written(h, vm, rank, o, k, newVal)
  {
    if IsSlot(h, o, k) && newVal != ValueAt(h, o, k) && Walks(h, rank, true, newVal, o) then
      var slot := h[o].props[k];
      assert forall i :: 0 <= i < |slot.dep| ==> slot.dep[i] in DepAt(h, o, k);
      Notified(Observed(h, rank, true, newVal), vm, slot.dep)
    else
      Written(h, vm, rank, o, k, newVal)
  }

  /** As written, a write of a value that leads back to the written object is lost: the key
      still reads its old value afterwards, e.g. `o.k = {back: o}`. */
  lemma WriteIntoDiscardedClosure(h: Heap, vm: Vm, rank: map<ObjId, nat>, o: ObjId, k: Key, newVal: Value)
    requires Ranked(h, rank) && o in h && DepsIn(h, vm.getters.Keys)
    requires IsSlot(h, o, k) && newVal != ValueAt(h, o, k) && Walks(h, rank, true, newVal, o)
    ensures var r := WrittenAsWritten(h, vm, rank, o, k, newVal).0;
      IsSlot(r, o, k) && ValueAt(r, o, k) == ValueAt(h, o, k) && ValueAt(r, o, k) != newVal
  {
    var slot := h[o].props[k];
    var h1 := Observed(h, rank, true, newVal);
    ObservedInstalls(h, rank, true, newVal, o, k);
    assert forall i :: 0 <= i < |slot.dep| ==> slot.dep[i] in DepAt(h, o, k);
    NotifiedKeepsValues(h1, vm, slot.dep);
  }

  /** `Written` stores the new value into the slot the accessor reaches, whether or not the new
      value leads back to the written object: the key reads the new value afterwards. */
  lemma WrittenStores(h: Heap, vm: Vm, rank: map<ObjId, nat>, o: ObjId, k: Key, newVal: Value)
    requires Ranked(h, rank) && o in h && DepsIn(h, vm.getters.Keys) && IsSlot(h, o, k)
    ensures var r := Written(h, vm, rank, o, k, newVal).0;
      IsSlot(r, o, k) && ValueAt(r, o, k) == newVal
  {
    if newVal != ValueAt(h, o, k) {
      var slot := h[o].props[k];
      var h2 := Store(Observed(h, rank, true, newVal), o, k, slot.(val := newVal));
      assert forall i :: 0 <= i < |slot.dep| ==> slot.dep[i] in DepAt(h, o, k);
      assert IsSlot(h2, o, k) && ValueAt(h2, o, k) == newVal;
      NotifiedKeepsValues(h2, vm, slot.dep);
    }
  }

  /** The objects `observe(v)` walks in `h`: those `v` leads to. */
  ghost function Reached(h: Heap, rank: map<ObjId, nat>, v: Value): set<ObjId>
    requires Ranked(h, rank)
  {
    set p | p in h && Walks(h, rank, true, v, p)
  }

  /** The heap a write of a different value notifies from: the new value observed, then stored
      in the slot's closure. */
  ghost function WriteStored(h: Heap, rank: map<ObjId, nat>, o: ObjId, k: Key, newVal: Value): Heap
    requires Ranked(h, rank) && IsSlot(h, o, k)
  {
    Store(Observed(h, rank, true, newVal), o, k, h[o].props[k].(val := newVal))
  }

  /** A write the setter carries out: a different value stored into a reactive slot, on a value
      that does not lead back to the written object. */
  ghost predicate ChangedWrite(h: Heap, vm: Vm, rank: map<ObjId, nat>, o: ObjId, k: Key, newVal: Value)
  {
    && Ranked(h, rank) && o in h && !Walks(h, rank, true, newVal, o) && DepsIn(h, vm.getters.Keys)
    && IsSlot(h, o, k) && newVal != ValueAt(h, o, k)
  }

  /** A write of a different value notifies the slot's Dep from `WriteStored`, in which the
      objects the new value leads to have lost their subscribers and every other Dep is as it
      was. */
  lemma WriteNotifies(h: Heap, vm: Vm, rank: map<ObjId, nat>, o: ObjId, k: Key, newVal: Value)
    requires ChangedWrite(h, vm, rank, o, k, newVal)
    ensures var h2 := WriteStored(h, rank, o, k, newVal);
      var dep := DepAt(h, o, k);
      && (forall i :: 0 <= i < |dep| ==> dep[i] in vm.getters)
      && Written(h, vm, rank, o, k, newVal).0 == Notified(h2, vm, dep).0
      && DepAt(h2, o, k) == dep
      && (forall p: ObjId, j: Key :: p in Reached(h, rank, newVal) ==> DepAt(h2, p, j) == [])
      && (forall p: ObjId, j: Key :: p !in Reached(h, rank, newVal) ==> DepAt(h2, p, j) == DepAt(h, p, j))
  {
    StoredDeps(h, rank, o, k, newVal);
    assert forall i :: 0 <= i < |DepAt(h, o, k)| ==> DepAt(h, o, k)[i] in DepAt(h, o, k);
  }

  /** A write of a different value leaves the written slot's Dep as it was: every watcher it
      re-runs is already in it. */
  lemma WriteKeepsDep(h: Heap, vm: Vm, rank: map<ObjId, nat>, o: ObjId, k: Key, newVal: Value)
    requires ChangedWrite(h, vm, rank, o, k, newVal)
    ensures DepAt(Written(h, vm, rank, o, k, newVal).0, o, k) == DepAt(h, o, k)
  {
    WriteNotifies(h, vm, rank, o, k, newVal);
    var h2 := WriteStored(h, rank, o, k, newVal);
    NotifiedKeepsFull(h2, vm, DepAt(h, o, k));
    assert HoldsAll(DepAt(h2, o, k), DepAt(h, o, k));
  }

  /** A notification from `h2`, whose Deps hold only subscribers they held in `h`, adds a
      subscriber to a Dep only when it re-ran that watcher and the getter read the slot. */
  lemma GainedThroughReads(h: Heap, h2: Heap, r: Heap, vm: Vm, ws: seq<WatcherId>)
    requires forall p: ObjId, j: Key, x: WatcherId :: x in DepAt(h2, p, j) ==> x in DepAt(h, p, j)
    requires forall p: ObjId, j: Key, x: WatcherId :: x in DepAt(r, p, j) && x !in DepAt(h2, p, j) ==>
      x in ws && (p, j) in WatcherReads(h2, vm, x)
    requires forall w :: WatcherReads(r, vm, w) == WatcherReads(h2, vm, w)
    ensures forall p: ObjId, j: Key, x: WatcherId :: x in DepAt(r, p, j) && x !in DepAt(h, p, j) ==>
      x in ws && (p, j) in WatcherReads(r, vm, x)
  {
    forall p: ObjId, j: Key, x: WatcherId | x in DepAt(r, p, j) && x !in DepAt(h, p, j)
      ensures x in ws && (p, j) in WatcherReads(r, vm, x)
    {
      assert x !in DepAt(h2, p, j);
    }
  }

  /** After a notification from `h2`, a slot whose Dep was empty in `h2` holds only re-run
      watchers whose getters read it. */
  lemma EmptiedThroughReads(h2: Heap, r: Heap, vm: Vm, ws: seq<WatcherId>, reached: set<ObjId>)
    requires forall p: ObjId, j: Key :: p in reached ==> DepAt(h2, p, j) == []
    requires forall p: ObjId, j: Key, x: WatcherId :: x in DepAt(r, p, j) && x !in DepAt(h2, p, j) ==>
      x in ws && (p, j) in WatcherReads(h2, vm, x)
    requires forall w :: WatcherReads(r, vm, w) == WatcherReads(h2, vm, w)
    ensures forall p: ObjId, j: Key, x: WatcherId :: p in reached && x in DepAt(r, p, j) ==>
      x in ws && (p, j) in WatcherReads(r, vm, x)
  {
    forall p: ObjId, j: Key, x: WatcherId | p in reached && x in DepAt(r, p, j)
      ensures x in ws && (p, j) in WatcherReads(r, vm, x)
    {
      assert DepAt(h2, p, j) == [];
    }
  }

  /** Notifying `ws` from `h2`, whose Deps hold only subscribers they held in `h`, adds a
      subscriber to a Dep only when it re-ran that watcher and its getter read the slot. */
  lemma NotifiedGained(h: Heap, h2: Heap, vm: Vm, ws: seq<WatcherId>)
    requires forall i :: 0 <= i < |ws| ==> ws[i] in vm.getters
    requires forall p: ObjId, j: Key, x: WatcherId :: x in DepAt(h2, p, j) ==> x in DepAt(h, p, j)
    ensures var r := Notified(h2, vm, ws).0;
      forall p: ObjId, j: Key, x: WatcherId :: x in DepAt(r, p, j) && x !in DepAt(h, p, j) ==>
        x in ws && (p, j) in WatcherReads(r, vm, x)
  {
    NotifiedGainsRead(h2, vm, ws);
    WatcherReadsStable(h2, vm, ws);
    GainedThroughReads(h, h2, Notified(h2, vm, ws).0, vm, ws);
  }

  /** After notifying `ws` from `h2`, a slot whose Dep was empty in `h2` holds only re-run
      watchers whose getters read it. */
  lemma NotifiedEmptied(h2: Heap, vm: Vm, ws: seq<WatcherId>, reached: set<ObjId>)
    requires forall i :: 0 <= i < |ws| ==> ws[i] in vm.getters
    requires forall p: ObjId, j: Key :: p in reached ==> DepAt(h2, p, j) == []
    ensures var r := Notified(h2, vm, ws).0;
      forall p: ObjId, j: Key, x: WatcherId :: p in reached && x in DepAt(r, p, j) ==>
        x in ws && (p, j) in WatcherReads(r, vm, x)
  {
    NotifiedGainsRead(h2, vm, ws);
    WatcherReadsStable(h2, vm, ws);
    EmptiedThroughReads(h2, Notified(h2, vm, ws).0, vm, ws, reached);
  }

  /** Every slot of an object the new value leads to has lost its old subscribers: it holds only
      re-run watchers whose getters read it. */
  lemma WriteResetsReached(h: Heap, vm: Vm, rank: map<ObjId, nat>, o: ObjId, k: Key, newVal: Value)
    requires ChangedWrite(h, vm, rank, o, k, newVal)
    ensures var r := Written(h, vm, rank, o, k, newVal).0;
      forall p: ObjId, j: Key, x: WatcherId :: p in Reached(h, rank, newVal) && x in DepAt(r, p, j) ==>
        x in DepAt(h, o, k) && (p, j) in WatcherReads(r, vm, x)
  {
    WriteNotifies(h, vm, rank, o, k, newVal);
    NotifiedEmptied(WriteStored(h, rank, o, k, newVal), vm, DepAt(h, o, k), Reached(h, rank, newVal));
  }

  /** A slot of an object the new value does not lead to keeps its Dep unless a re-run getter
      read it. */
  lemma WriteDepsFrame(h: Heap, vm: Vm, rank: map<ObjId, nat>, o: ObjId, k: Key, newVal: Value)
    requires ChangedWrite(h, vm, rank, o, k, newVal)
    ensures var r := Written(h, vm, rank, o, k, newVal).0;
      forall p: ObjId, j: Key :: p !in Reached(h, rank, newVal) && (p, j) !in NotifiedReads(r, vm, DepAt(h, o, k)) ==>
        DepAt(r, p, j) == DepAt(h, p, j)
  {
    WriteNotifies(h, vm, rank, o, k, newVal);
    var h2 := WriteStored(h, rank, o, k, newVal);
    var r := Written(h, vm, rank, o, k, newVal).0;
    NotifiedDepsFrame(h2, vm, DepAt(h, o, k));
    NotifiedReadsStable(h2, vm, DepAt(h, o, k));
    forall p: ObjId, j: Key | p !in Reached(h, rank, newVal) && (p, j) !in NotifiedReads(r, vm, DepAt(h, o, k))
      ensures DepAt(r, p, j) == DepAt(h, p, j)
    {
      assert DepAt(r, p, j) == DepAt(h2, p, j);
    }
  }

  /** A watcher joins a Dep in a write only if the write re-ran it and its getter read that slot:
      a watcher that never read a key is not notified when it changes. */
  lemma WriteNewSubscribersRead(h: Heap, vm: Vm, rank: map<ObjId, nat>, o: ObjId, k: Key, newVal: Value)
    requires ChangedWrite(h, vm, rank, o, k, newVal)
    ensures var r := Written(h, vm, rank, o, k, newVal).0;
      forall p: ObjId, j: Key, x: WatcherId :: x in DepAt(r, p, j) && x !in DepAt(h, p, j) ==>
        x in DepAt(h, o, k) && (p, j) in WatcherReads(r, vm, x)
  {
    WriteNotifies(h, vm, rank, o, k, newVal);
    var h2 := WriteStored(h, rank, o, k, newVal);
    forall p: ObjId, j: Key, x: WatcherId | x in DepAt(h2, p, j)
      ensures x in DepAt(h, p, j)
    {
      if p !in Reached(h, rank, newVal) {
        assert DepAt(h2, p, j) == DepAt(h, p, j);
      }
    }
    NotifiedGained(h, h2, vm, DepAt(h, o, k));
  }

  /** The heap a changed write notifies from: the new value observed, then stored. */
  lemma StoredDeps(h: Heap, rank: map<ObjId, nat>, o: ObjId, k: Key, newVal: Value)
    requires Ranked(h, rank) && o in h && !Walks(h, rank, true, newVal, o) && IsSlot(h, o, k)
    ensures var h2 := WriteStored(h, rank, o, k, newVal);
      && DepAt(h2, o, k) == DepAt(h, o, k)
      && (forall p: ObjId, j: Key :: p in Reached(h, rank, newVal) ==> DepAt(h2, p, j) == [])
      && (forall p: ObjId, j: Key :: p !in Reached(h, rank, newVal) ==> DepAt(h2, p, j) == DepAt(h, p, j))
  {
    var h1 := Observed(h, rank, true, newVal);
    ObservedInstalls(h, rank, true, newVal, o, k);
    var h2 := WriteStored(h, rank, o, k, newVal);
    forall p: ObjId, j: Key
      ensures p in Reached(h, rank, newVal) ==> DepAt(h2, p, j) == []
      ensures p !in Reached(h, rank, newVal) ==> DepAt(h2, p, j) == DepAt(h, p, j)
    {
      ObservedInstalls(h, rank, true, newVal, p, j);
      if p != o || j != k {
        assert DepAt(h2, p, j) == DepAt(h1, p, j);
        if p in Reached(h, rank, newVal) {
          assert p in h1 && h1[p].props.Keys == h[p].props.Keys;
        } else if p !in h {
          assert p !in h1;
        }
      }
    }
  }

  /** Writes keep the instance invariant. */
  lemma WriteKeepsOk(h: Heap, vm: Vm, rank: map<ObjId, nat>, o: ObjId, k: Key, newVal: Value)
    requires Ranked(h, rank) && o in h && !Walks(h, rank, true, newVal, o)
    requires HeapOk(h, vm.getters.Keys) && (newVal.Ref? ==> newVal.id in h)
    ensures HeapOk(Written(h, vm, rank, o, k, newVal).0, vm.getters.Keys)
  {
    if IsSlot(h, o, k) && newVal != ValueAt(h, o, k) {
      var slot := h[o].props[k];
      var h1 := Observed(h, rank, true, newVal);
      ObservedInstalls(h, rank, true, newVal, o, k);
      ResetKeepsOk(h, h1, vm.getters.Keys);
      assert DepAt(h1, o, k) == slot.dep && IsSlot(h1, o, k);
      StoreKeepsOk(h1, o, k, slot.(val := newVal), vm.getters.Keys);
      var h2 := Store(h1, o, k, slot.(val := newVal));
      assert forall i :: 0 <= i < |slot.dep| ==> slot.dep[i] in DepAt(h, o, k);
      NotifiedEffect(h2, vm, slot.dep);
      ReadStepKeeps(h2, Written(h, vm, rank, o, k, newVal).0, vm.getters.Keys, vm.getters.Keys);
    } else if !IsSlot(h, o, k) {
      StoreKeepsOk(h, o, k, Plain(newVal), vm.getters.Keys);
    }
  }

  /** With Set-backed Deps, one write re-runs each watcher at most once. */
  lemma WriteUpdatesEachWatcherOnce(h: Heap, vm: Vm, rank: map<ObjId, nat>, o: ObjId, k: Key, newVal: Value, i: nat, j: nat)
    requires Ranked(h, rank) && o in h && !Walks(h, rank, true, newVal, o) && DepsIn(h, vm.getters.Keys)
    requires DepsAreSets(h)
    requires var runs := Written(h, vm, rank, o, k, newVal).1; i < j < |runs|
    ensures var runs := Written(h, vm, rank, o, k, newVal).1; runs[i].watcher != runs[j].watcher
  {
    WriteSemantics(h, vm, rank, o, k, newVal);
  }

  /** kvue2's walk has no array case: an array's own keys become reactive like an object's. */
  lemma ObserveWalksArrays(h: Heap, rank: map<ObjId, nat>, a: ObjId, j: Key)
    requires Ranked(h, rank) && a in h && h[a].isArray && j in h[a].props
    ensures IsSlot(Observed(h, rank, true, Ref(a)), a, j)
  {
    ObservedInstalls(h, rank, true, Ref(a), a, j);
  }

  // ---------------------------------------------------------------------------------------
  // The instance

  /** A `KVue` instance together with the global `Dep.target`. */
  class KVue {
    var heap: Heap
    var data: ObjId                         // this.$data
    var proxied: set<Key>                   // the keys proxy() forwarded
    var getters: map<WatcherId, seq<Path>>  // each Watcher's getter
    var nextWatcher: WatcherId
    var target: Option<WatcherId>           // Dep.target
    var log: seq<Run>                       // every getter run, in order

    function View(): Vm
      reads this`data, this`proxied, this`getters
    {
      Vm(data, proxied, getters)
    }

    /** The state between two steps of a watcher's `get`. */
    ghost predicate Wf()
      reads this
    {
      && data in heap && HeapOk(heap, getters.Keys)
      && (target.Some? ==> target.value in getters)
      && (forall w :: w in getters ==> w < nextWatcher)
    }

    /** The state between operations: no watcher is collecting dependencies. */
    ghost predicate Valid()
      reads this
    {
      Wf() && target.None?
    }

    /** `new KVue({data})` without `el`: observe `$data`, then proxy its keys. */
    constructor (h: Heap, data: ObjId, ghost rank: map<ObjId, nat>)
      requires data in h && Closed(h) && Ranked(h, rank) && NoSubscribers(h)
      ensures Valid()
      ensures heap == Observed(h, rank, true, Ref(data)) && this.data == data
      ensures proxied == h[data].props.Keys && getters == map[] && log == []
    {
      heap := h;
      this.data := data;
      proxied := {};
      getters := map[];
      nextWatcher := 0;
      target := None;
      log := [];
      new;
      NoSubscribersSound(h, {});
      assert getters.Keys == {};
      Observe(Ref(data), rank);
      Proxy();
    }

    /** Reading `obj[key]` (kvue2.js:10-16). */
    method Get(o: ObjId, k: Key) returns (v: Value)
      requires Wf()
      modifies this`heap
      ensures Wf()
      ensures (heap, v) == Read(old(heap), target, o, k)
    {
      ReadEffect(heap, target, o, k);
      ReadStepKeeps(heap, Read(heap, target, o, k).0, Targets(target), getters.Keys);
      if o in heap && k in heap[o].props {
        var prop := heap[o].props[k];
        if prop.Slot? {
          if target.Some? {
            heap := Store(heap, o, k, prop.(dep := AddDep(prop.dep, target.value)));
          }
          v := prop.val;
        } else {
          v := prop.v;
        }
      } else {
        v := Undefined;
      }
    }

    /** Reading `v.k1.k2...`. */
    method GetPath(v: Value, keys: seq<Key>) returns (r: Value)
      requires Wf()
      modifies this`heap
      ensures Wf()
      ensures (heap, r) == ReadPath(old(heap), target, v, keys)
    {
      r := v;
      var i := 0;
      while i < |keys|
        invariant 0 <= i <= |keys| && Wf()
        invariant ReadPath(heap, target, r, keys[i..]) == ReadPath(old(heap), target, v, keys)
      {
        if !r.Ref? {
          r := Undefined;
          i := |keys|;
        } else {
          assert keys[i..][1..] == keys[i + 1..];
          r := Get(r.id, keys[i]);
          i := i + 1;
        }
      }
    }

    /** Reading `vm[path.key]` and then down `path.rest`. */
    method GetVmPath(path: Path) returns (r: Value)
      requires Wf()
      modifies this`heap
      ensures Wf()
      ensures (heap, r) == ReadVmPath(old(heap), target, View(), path)
    {
      if path.key in proxied {
        var v := Get(data, path.key);
        r := GetPath(v, path.rest);
      } else {
        r := Undefined;
      }
    }

    /** `Watcher.get` (kvue2.js:232-236): leaves `Dep.target` null whatever it was before. */
    method RunGet(w: WatcherId) returns (run: Run)
      requires Wf() && w in getters
      modifies this`heap, this`target, this`log
      ensures Valid()
      ensures (heap, run) == RunGetter(old(heap), View(), w)
      ensures log == old(log) + [run]
    {
      target := Some(w);
      var paths := getters[w];
      ghost var vm := View();
      ghost var goal := RunPaths(heap, Some(w), vm, paths);
      var seen: seq<Value> := [];
      var i := 0;
      while i < |paths|
        invariant 0 <= i <= |paths| && Wf() && target == Some(w) && View() == vm && log == old(log)
        invariant RunPaths(heap, Some(w), vm, paths[i..]).0 == goal.0
        invariant seen + RunPaths(heap, Some(w), vm, paths[i..]).1 == goal.1
      {
        RunPathsUnfold(heap, Some(w), vm, paths, i);
        ghost var later := RunPaths(ReadVmPath(heap, Some(w), vm, paths[i]).0, Some(w), vm, paths[i + 1..]).1;
        var v := GetVmPath(paths[i]);
        assert (seen + [v]) + later == seen + ([v] + later);
        seen := seen + [v];
        i := i + 1;
      }
      assert paths[i..] == [];
      assert seen == goal.1;
      target := None;
      run := Run(w, seen);
      log := log + [run];
    }

    /** `Watcher.update` (kvue2.js:238-240) is `get()` again. */
    method Update(w: WatcherId)
      requires Wf() && w in getters
      modifies this`heap, this`target, this`log
      ensures Valid()
      ensures heap == RunGetter(old(heap), View(), w).0
      ensures log == old(log) + [RunGetter(old(heap), View(), w).1]
    {
      var _ := RunGet(w);
    }

    /** `new Watcher(vm, updateFn)` (kvue2.js:225-230): register the getter and run it once. */
    method NewWatcher(paths: seq<Path>) returns (w: WatcherId)
      requires Valid()
      modifies this
      ensures Valid() && w !in old(getters)
      ensures getters == old(getters)[w := paths] && data == old(data) && proxied == old(proxied)
      ensures heap == RunGetter(old(heap), View(), w).0
      ensures log == old(log) + [RunGetter(old(heap), View(), w).1]
    {
      w := nextWatcher;
      nextWatcher := nextWatcher + 1;
      getters := getters[w := paths];
      Update(w);
    }

    /** `dep.notify()` (kvue2.js:255-257). */
    method Notify(ws: seq<WatcherId>)
      requires Valid() && forall i :: 0 <= i < |ws| ==> ws[i] in getters
      modifies this`heap, this`target, this`log
      ensures Valid()
      ensures heap == Notified(old(heap), View(), ws).0
      ensures log == old(log) + Notified(old(heap), View(), ws).1
    {
      ghost var vm := View();
      ghost var goal := Notified(heap, vm, ws);
      var i := 0;
      while i < |ws|
        invariant 0 <= i <= |ws| && Valid() && View() == vm
        invariant Notified(heap, vm, ws[i..]).0 == goal.0
        invariant log + Notified(heap, vm, ws[i..]).1 == old(log) + goal.1
      {
        NotifiedUnfold(heap, vm, ws, i);
        ghost var run := RunGetter(heap, vm, ws[i]).1;
        ghost var later := Notified(RunGetter(heap, vm, ws[i]).0, vm, ws[i + 1..]).1;
        ghost var before := log;
        Update(ws[i]);
        assert log + later == before + ([run] + later);
        i := i + 1;
      }
    }

    /** `observe` (kvue2.js:30-37). */
    method Observe(v: Value, ghost rank: map<ObjId, nat>)
      requires Valid() && Ranked(heap, rank) && (v.Ref? ==> v.id in heap)
      modifies this`heap
      ensures Valid() && heap == Observed(old(heap), rank, true, v)
      decreases Depth(rank, v), 1
    {
      if IsObject(v) {
        Walk(v.id, rank);
      } else {
        ObservedNothing(heap, rank, true, v);
      }
    }

    /** `new Observer(obj)`, that is `walk(obj)` (kvue2.js:261-271). */
    method Walk(o: ObjId, ghost rank: map<ObjId, nat>)
      requires Valid() && Ranked(heap, rank) && o in heap
      modifies this`heap
      ensures Valid() && heap == Observed(old(heap), rank, true, Ref(o))
      decreases Depth(rank, Ref(o)), 0
    {
      ghost var h0 := heap;
      var todo := heap[o].props.Keys;
      ghost var done: set<Key> := {};
      WalkStart(h0, rank, true, o);
      while todo != {}
        invariant todo !! done && todo + done == h0[o].props.Keys
        invariant Valid() && heap == WalkedSoFar(h0, rank, true, o, done)
        decreases todo
      {
        var k :| k in todo;
        WalkStep(h0, rank, true, o, done, k);
        var val := ValueAt(heap, o, k);  // obj[key], read while Dep.target is null
        DefineReactive(o, k, val, rank);
        todo := todo - {k};
        done := done + {k};
      }
      WalkDone(h0, rank, true, o);
    }

    /** `defineReactive(obj, key, val)` (kvue2.js:1-28): observe `val`, then install the
        accessor pair with a fresh Dep. */
    method DefineReactive(o: ObjId, k: Key, val: Value, ghost rank: map<ObjId, nat>)
      requires Valid() && Ranked(heap, rank) && o in heap && (val.Ref? ==> val.id in heap)
      modifies this`heap
      ensures Valid() && heap == Install(Observed(old(heap), rank, true, val), o, k, val)
      decreases Depth(rank, val), 2
    {
      Observe(val, rank);
      StoreKeepsOk(heap, o, k, Slot(val, []), getters.Keys);
      heap := Install(heap, o, k, val);
    }

    /** `obj[key] = newVal`. */
    method Assign(o: ObjId, k: Key, newVal: Value, ghost rank: map<ObjId, nat>)
      requires Valid() && o in heap && (newVal.Ref? ==> newVal.id in heap)
      requires Ranked(heap, rank) && !Walks(heap, rank, true, newVal, o)
      modifies this`heap, this`target, this`log
      ensures Valid()
      ensures heap == Written(old(heap), View(), rank, o, k, newVal).0
      ensures log == old(log) + Written(old(heap), View(), rank, o, k, newVal).1
    {
      if IsSlot(heap, o, k) {
        var slot := heap[o].props[k];
        if newVal != slot.val {
          ghost var h0 := heap;
          assert slot.dep == DepAt(h0, o, k);
          Observe(newVal, rank);
          ObservedInstalls(h0, rank, true, newVal, o, k);
          StoreKeepsOk(heap, o, k, slot.(val := newVal), getters.Keys);
          heap := Store(heap, o, k, slot.(val := newVal));
          Notify(slot.dep);
        }
      } else {
        StoreKeepsOk(heap, o, k, Plain(newVal), getters.Keys);
        heap := Store(heap, o, k, Plain(newVal));
      }
    }

    /** `vm[key] = val` for a key `proxy` forwarded: `vm.$data[key] = val` (kvue2.js:47-49). */
    method VmAssign(key: Key, val: Value, ghost rank: map<ObjId, nat>)
      requires Valid() && key in proxied && (val.Ref? ==> val.id in heap)
      requires Ranked(heap, rank) && !Walks(heap, rank, true, val, data)
      modifies this`heap, this`target, this`log
      ensures Valid()
      ensures heap == Written(old(heap), View(), rank, data, key, val).0
      ensures log == old(log) + Written(old(heap), View(), rank, data, key, val).1
    {
      Assign(data, key, val, rank);
    }

    /** `proxy(vm)` (kvue2.js:39-52): forward every key `$data` has now. */
    method Proxy()
      requires Valid()
      modifies this`proxied
      ensures Valid() && proxied == old(proxied) + heap[data].props.Keys
    {
      var todo := heap[data].props.Keys;
      while todo != {}
        invariant Valid() && todo <= heap[data].props.Keys
        invariant proxied + todo == old(proxied) + heap[data].props.Keys
        decreases todo
      {
        var k :| k in todo;
        proxied := proxied + {k};
        todo := todo - {k};
      }
    }
  }
}
