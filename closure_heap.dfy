/** The heap shared by the three getter/setter cores (kvue2, kvue, mvue): objects whose own
    properties are either plain data properties or the accessor pair that `defineReactive`
    installs with `Object.defineProperty`. The accessor's closure holds the current value and
    the slot's `Dep`; nothing else can reach that closure, so the model keeps both inside the
    property. Also the closed form of a recursive `observe` walk, shared by kvue2 (which walks
    arrays like objects) and kvue (which stops at arrays). */
module ClosureHeap {
  import opened JsValues

  /** An own property: plain data, or a reactive slot (closure value and the Dep's watchers). */
  datatype Prop = Plain(v: Value) | Slot(val: Value, dep: seq<WatcherId>)
  {
    /** What a read of the property yields. */
    function Current(): Value
    {
      if Plain? then v else val
    }
  }

  datatype Obj = Obj(isArray: bool, props: map<Key, Prop>)

  type Heap = map<ObjId, Obj>

  /** `obj[key]` as a value: `undefined` for a missing object or key. */
  function ValueAt(h: Heap, o: ObjId, k: Key): Value
  {
    if o in h && k in h[o].props then h[o].props[k].Current() else Undefined
  }

  predicate IsSlot(h: Heap, o: ObjId, k: Key)
  {
    o in h && k in h[o].props && h[o].props[k].Slot?
  }

  /** The watchers in the Dep of slot (o, k); empty where there is no slot. */
  function DepAt(h: Heap, o: ObjId, k: Key): seq<WatcherId>
  {
    if IsSlot(h, o, k) then h[o].props[k].dep else []
  }

  /** Same objects, same keys, same array flags and the same value under every key: only the
      accessors and their Deps may differ. */
  ghost predicate SameValues(h: Heap, h': Heap)
  {
    && h.Keys == h'.Keys
    && (forall o :: o in h ==> h[o].isArray == h'[o].isArray && h[o].props.Keys == h'[o].props.Keys)
    && (forall o, k :: ValueAt(h, o, k) == ValueAt(h', o, k))
  }

  /** A JS object reference always names an existing object. */
  ghost predicate Closed(h: Heap)
  {
    forall o, k :: ValueAt(h, o, k).Ref? ==> ValueAt(h, o, k).id in h
  }

  /** Every watcher subscribed anywhere belongs to `ws`. */
  ghost predicate DepsIn(h: Heap, ws: set<WatcherId>)
  {
    forall o, k, x :: x in DepAt(h, o, k) ==> x in ws
  }

  /** The same properties are reactive in both heaps, and no Dep lost a subscriber. */
  ghost predicate DepsGrow(h: Heap, h': Heap)
  {
    && (forall o, k :: IsSlot(h, o, k) <==> IsSlot(h', o, k))
    && (forall o, k, x :: x in DepAt(h, o, k) ==> x in DepAt(h', o, k))
  }

  /** Every Dep of `h'` is empty or is the Dep the same slot had in `h`. */
  ghost predicate DepsFromOrEmpty(h: Heap, h': Heap)
  {
    forall o, k :: DepAt(h', o, k) == [] || DepAt(h', o, k) == DepAt(h, o, k)
  }

  lemma DepsInFrom(h: Heap, h': Heap, ws: set<WatcherId>)
    requires DepsIn(h, ws) && DepsFromOrEmpty(h, h')
    ensures DepsIn(h', ws)
  {
    forall o, k, x | x in DepAt(h', o, k)
      ensures x in ws
    {
      assert DepAt(h', o, k) == DepAt(h, o, k);
    }
  }

  /** References stay inside the heap and every subscriber is one of the watchers `ws`. */
  ghost predicate Sound(h: Heap, ws: set<WatcherId>)
  {
    Closed(h) && DepsIn(h, ws)
  }

  /** No slot has a subscriber: the state before any watcher exists. */
  ghost predicate NoSubscribers(h: Heap)
  {
    forall o, k :: DepAt(h, o, k) == []
  }

  lemma NoSubscribersSound(h: Heap, ws: set<WatcherId>)
    requires Closed(h) && NoSubscribers(h)
    ensures Sound(h, ws)
  {
  }

  /** Re-installing slots with empty Deps keeps the heap sound. */
  lemma ResetKeepsSound(h: Heap, h': Heap, ws: set<WatcherId>)
    requires Sound(h, ws) && SameValues(h, h') && DepsFromOrEmpty(h, h')
    ensures Sound(h', ws)
  {
    ClosedSameValues(h, h');
    DepsInFrom(h, h', ws);
  }

  /** Replace the own property `k` of `o` by `p`, leaving every other property as it was. */
  function Store(h: Heap, o: ObjId, k: Key, p: Prop): (r: Heap)
    requires o in h
    ensures r.Keys == h.Keys && k in r[o].props && r[o].props[k] == p
    ensures r[o].isArray == h[o].isArray && r[o].props.Keys == h[o].props.Keys + {k}
    ensures forall q :: q in h && q != o ==> r[q] == h[q]
    ensures forall q, j :: q != o || j != k ==> ValueAt(r, q, j) == ValueAt(h, q, j)
    ensures forall q, j :: q != o || j != k ==> IsSlot(r, q, j) == IsSlot(h, q, j) && DepAt(r, q, j) == DepAt(h, q, j)
  {
    h[o := h[o].(props := h[o].props[k := p])]
  }

  /** Storing a property whose value is an existing object or a primitive, and whose Dep (if any)
      holds known watchers only, keeps the heap sound. */
  lemma StoreKeepsSound(h: Heap, o: ObjId, k: Key, p: Prop, ws: set<WatcherId>)
    requires Sound(h, ws) && o in h && (p.Current().Ref? ==> p.Current().id in h)
    requires p.Slot? ==> forall x :: x in p.dep ==> x in ws
    ensures Sound(Store(h, o, k, p), ws)
  {
    var r := Store(h, o, k, p);
    assert ValueAt(r, o, k) == p.Current() && DepAt(r, o, k) == (if p.Slot? then p.dep else []);
    forall q, j | ValueAt(r, q, j).Ref? ensures ValueAt(r, q, j).id in r {
      if q != o || j != k {
        assert ValueAt(r, q, j) == ValueAt(h, q, j);
      }
    }
    forall q, j, x | x in DepAt(r, q, j) ensures x in ws {
      if q != o || j != k {
        assert DepAt(r, q, j) == DepAt(h, q, j);
      }
    }
  }

  /** What reads do to the heap: every value stays, the same keys stay reactive, no Dep loses a
      subscriber, and every new subscriber is one of `ts` (the watchers that were reading). */
  ghost predicate ReadStep(h: Heap, h': Heap, ts: set<WatcherId>)
  {
    && SameValues(h, h') && DepsGrow(h, h')
    && (forall o, k, x :: x in DepAt(h', o, k) ==> x in DepAt(h, o, k) || x in ts)
  }

  function Targets(t: Option<WatcherId>): set<WatcherId>
  {
    if t.Some? then {t.value} else {}
  }

  /** A subscriber a read step added is one of the readers. */
  lemma ReadStepNew(h: Heap, h': Heap, ts: set<WatcherId>, o: ObjId, k: Key, x: WatcherId)
    requires ReadStep(h, h', ts) && x in DepAt(h', o, k) && x !in DepAt(h, o, k)
    ensures x in ts
  {
  }

  lemma ReadStepRefl(h: Heap, ts: set<WatcherId>)
    ensures ReadStep(h, h, ts)
  {
  }

  lemma ReadStepTrans(h1: Heap, h2: Heap, h3: Heap, ts: set<WatcherId>, ts': set<WatcherId>)
    requires ReadStep(h1, h2, ts) && ReadStep(h2, h3, ts') && ts <= ts'
    ensures ReadStep(h1, h3, ts')
  {
    forall o, k ensures ValueAt(h1, o, k) == ValueAt(h3, o, k) {
      assert ValueAt(h1, o, k) == ValueAt(h2, o, k);
    }
    forall o, k ensures IsSlot(h1, o, k) <==> IsSlot(h3, o, k) {
      assert IsSlot(h1, o, k) <==> IsSlot(h2, o, k);
    }
    forall o, k, x | x in DepAt(h1, o, k) ensures x in DepAt(h3, o, k) {
      assert x in DepAt(h2, o, k);
    }
    forall o, k, x | x in DepAt(h3, o, k) ensures x in DepAt(h1, o, k) || x in ts' {
      assert x in DepAt(h2, o, k) || x in ts';
    }
  }

  /** Reads keep the heap sound when the readers are known watchers. */
  lemma ReadStepKeeps(h: Heap, h': Heap, ts: set<WatcherId>, ws: set<WatcherId>)
    requires ReadStep(h, h', ts) && ts <= ws && Sound(h, ws)
    ensures Sound(h', ws)
  {
    ClosedSameValues(h, h');
    forall o, k, x | x in DepAt(h', o, k) ensures x in ws {
      assert x in DepAt(h, o, k) || x in ts;
    }
  }

  /** Giving slot (o, k) a Dep `dep'` that keeps the old subscribers and adds only `t` is a read step. */
  lemma SubscribeStep(h: Heap, o: ObjId, k: Key, dep': seq<WatcherId>, t: WatcherId)
    requires IsSlot(h, o, k)
    requires forall x :: x in DepAt(h, o, k) ==> x in dep'
    requires forall x :: x in dep' ==> x in DepAt(h, o, k) || x == t
    ensures ReadStep(h, Store(h, o, k, h[o].props[k].(dep := dep')), {t})
  {
    var r := Store(h, o, k, h[o].props[k].(dep := dep'));
    assert ValueAt(r, o, k) == ValueAt(h, o, k) && DepAt(r, o, k) == dep';
    assert forall q, j :: ValueAt(r, q, j) == ValueAt(h, q, j);
    assert forall q :: q in h ==> r[q].props.Keys == h[q].props.Keys;
  }

  // ---------------------------------------------------------------------------------------
  // Acyclicity. `observe` recurses into every object value; on a cyclic object graph the
  // recursion never ends (the engine overflows its stack), so callers must pass a rank that
  // strictly decreases from every object to each object it refers to.

  function Depth(rank: map<ObjId, nat>, v: Value): nat
  {
    if v.Ref? && v.id in rank then rank[v.id] + 1 else 0
  }

  ghost predicate Ranked(h: Heap, rank: map<ObjId, nat>)
  {
    && (forall o :: o in h ==> o in rank)
    && (forall o, k :: o in h && k in h[o].props ==> o in rank && Depth(rank, ValueAt(h, o, k)) <= rank[o])
  }

  lemma ClosedSameValues(h: Heap, h': Heap)
    requires Closed(h) && SameValues(h, h')
    ensures Closed(h')
  {
    forall o, k | ValueAt(h', o, k).Ref?
      ensures ValueAt(h', o, k).id in h'
    {
      assert ValueAt(h, o, k) == ValueAt(h', o, k);
    }
  }

  lemma RankedSameValues(h: Heap, h': Heap, rank: map<ObjId, nat>)
    requires Ranked(h, rank) && SameValues(h, h')
    ensures Ranked(h', rank)
  {
    forall o, k | o in h' && k in h'[o].props
      ensures o in rank && Depth(rank, ValueAt(h', o, k)) <= rank[o]
    {
      assert ValueAt(h, o, k) == ValueAt(h', o, k);
    }
  }

  // ---------------------------------------------------------------------------------------
  // The walk of `observe`: which objects get their own keys re-installed.

  /** `p` is an object whose keys the walk started at `v` re-installs: `v` itself when it is an
      object (and, unless `intoArrays`, not an array), and whatever the walk reaches through the
      values of its own keys. */
  ghost predicate Walks(h: Heap, rank: map<ObjId, nat>, intoArrays: bool, v: Value, p: ObjId)
    requires Ranked(h, rank)
    decreases Depth(rank, v)
  {
    && v.Ref? && v.id in h && (intoArrays || !h[v.id].isArray)
    && (p == v.id || exists k :: k in h[v.id].props && Walks(h, rank, intoArrays, ValueAt(h, v.id, k), p))
  }

  lemma {:induction false} WalksRank(h: Heap, rank: map<ObjId, nat>, intoArrays: bool, v: Value, p: ObjId)
    requires Ranked(h, rank) && Walks(h, rank, intoArrays, v, p)
    ensures v.Ref? && p in h && p in rank && v.id in rank && rank[p] <= rank[v.id]
    decreases Depth(rank, v)
  {
    if p != v.id {
      var k :| k in h[v.id].props && Walks(h, rank, intoArrays, ValueAt(h, v.id, k), p);
      WalksRank(h, rank, intoArrays, ValueAt(h, v.id, k), p);
    }
  }

  /** The walk looks only at values, so it is the same on a heap whose accessors differ. */
  lemma {:induction false} WalksSameValues(h: Heap, h': Heap, rank: map<ObjId, nat>, intoArrays: bool, v: Value, p: ObjId)
    requires Ranked(h, rank) && SameValues(h, h')
    ensures Ranked(h', rank)
    ensures Walks(h, rank, intoArrays, v, p) <==> Walks(h', rank, intoArrays, v, p)
    decreases Depth(rank, v)
  {
    RankedSameValues(h, h', rank);
    if v.Ref? && v.id in h && (intoArrays || !h[v.id].isArray) && p != v.id {
      forall k | k in h[v.id].props
        ensures Walks(h, rank, intoArrays, ValueAt(h, v.id, k), p) <==> Walks(h', rank, intoArrays, ValueAt(h', v.id, k), p)
      {
        assert ValueAt(h, v.id, k) == ValueAt(h', v.id, k);
        WalksSameValues(h, h', rank, intoArrays, ValueAt(h, v.id, k), p);
      }
    }
  }

  /** Every own key turned into a fresh slot: current value, empty Dep. */
  function ResetObj(obj: Obj): (r: Obj)
    ensures r.isArray == obj.isArray && r.props.Keys == obj.props.Keys
  {
    obj.(props := map k | k in obj.props :: Slot(obj.props[k].Current(), []))
  }

  /** The heap after `observe(v)`: every walked object has all its own keys re-installed with a
      new, empty Dep; every other object is untouched. */
  ghost function Observed(h: Heap, rank: map<ObjId, nat>, intoArrays: bool, v: Value): (r: Heap)
    requires Ranked(h, rank)
    ensures SameValues(h, r)
    ensures DepsFromOrEmpty(h, r)
  {
    var r := map p | p in h :: if Walks(h, rank, intoArrays, v, p) then ResetObj(h[p]) else h[p];
    assert forall o, k :: ValueAt(h, o, k) == ValueAt(r, o, k);
    r
  }

  /** `Object.defineProperty(obj, key, {get, set})` with a fresh `Dep` whose closure holds `v`. */
  function Install(h: Heap, o: ObjId, k: Key, v: Value): (r: Heap)
    requires o in h
    ensures r.Keys == h.Keys && IsSlot(r, o, k) && ValueAt(r, o, k) == v && DepAt(r, o, k) == []
    ensures forall p, j :: p != o || j != k ==> ValueAt(r, p, j) == ValueAt(h, p, j)
    ensures forall p, j :: p != o || j != k ==> IsSlot(r, p, j) == IsSlot(h, p, j) && DepAt(r, p, j) == DepAt(h, p, j)
    ensures DepsFromOrEmpty(h, r)
  {
    Store(h, o, k, Slot(v, []))
  }

  /** Walking a value that is not an object, or an array when arrays are skipped, installs nothing. */
  lemma ObservedNothing(h: Heap, rank: map<ObjId, nat>, intoArrays: bool, v: Value)
    requires Ranked(h, rank)
    requires !v.Ref? || v.id !in h || (!intoArrays && h[v.id].isArray)
    ensures Observed(h, rank, intoArrays, v) == h
  {
  }

  /** After the walk, every own key of every walked object is a slot with the value it had and
      no subscriber; objects the walk does not reach are unchanged. */
  lemma ObservedInstalls(h: Heap, rank: map<ObjId, nat>, intoArrays: bool, v: Value, p: ObjId, k: Key)
    requires Ranked(h, rank)
    ensures var r := Observed(h, rank, intoArrays, v);
      && (Walks(h, rank, intoArrays, v, p) && p in h && k in h[p].props ==> IsSlot(r, p, k) && DepAt(r, p, k) == [] && ValueAt(r, p, k) == ValueAt(h, p, k))
      && (!Walks(h, rank, intoArrays, v, p) && p in h ==> r[p] == h[p])
  {
  }

  // ---------------------------------------------------------------------------------------
  // The loop of `Observer.walk` over one object's keys, as a heap after some keys are done.

  function PartialReset(obj: Obj, done: set<Key>): Obj
  {
    obj.(props := map k | k in obj.props :: if k in done then Slot(obj.props[k].Current(), []) else obj.props[k])
  }

  /** The heap once the keys `done` of object `o` have been through `defineReactive`. */
  ghost function WalkedSoFar(h: Heap, rank: map<ObjId, nat>, intoArrays: bool, o: ObjId, done: set<Key>): Heap
    requires Ranked(h, rank) && o in h
  {
    map p | p in h ::
      if p == o then PartialReset(h[o], done)
      else if exists k :: k in done && k in h[o].props && Walks(h, rank, intoArrays, ValueAt(h, o, k), p) then ResetObj(h[p])
      else h[p]
  }

  lemma WalkStart(h: Heap, rank: map<ObjId, nat>, intoArrays: bool, o: ObjId)
    requires Ranked(h, rank) && o in h
    ensures WalkedSoFar(h, rank, intoArrays, o, {}) == h
  {
    assert PartialReset(h[o], {}).props == h[o].props;
  }

  lemma WalkedSoFarValues(h: Heap, rank: map<ObjId, nat>, intoArrays: bool, o: ObjId, done: set<Key>)
    requires Ranked(h, rank) && o in h
    ensures SameValues(h, WalkedSoFar(h, rank, intoArrays, o, done))
    ensures Ranked(WalkedSoFar(h, rank, intoArrays, o, done), rank)
  {
    var r := WalkedSoFar(h, rank, intoArrays, o, done);
    assert forall p, j :: ValueAt(h, p, j) == ValueAt(r, p, j);
    RankedSameValues(h, r, rank);
  }

  lemma ResetObjIdempotent(obj: Obj)
    ensures ResetObj(ResetObj(obj)) == ResetObj(obj)
  {
    assert ResetObj(ResetObj(obj)).props == ResetObj(obj).props;
  }

  /** The walk from the value under one of `o`'s keys never comes back to `o`. */
  lemma WalkAvoidsOwner(h: Heap, rank: map<ObjId, nat>, intoArrays: bool, o: ObjId, k: Key)
    requires Ranked(h, rank) && o in h && k in h[o].props
    ensures !Walks(h, rank, intoArrays, ValueAt(h, o, k), o)
  {
    if Walks(h, rank, intoArrays, ValueAt(h, o, k), o) {
      WalksRank(h, rank, intoArrays, ValueAt(h, o, k), o);
      assert false;
    }
  }

  /** One turn of the loop: `defineReactive(obj, key, obj[key])` observes the value, which
      leaves `o` alone because the graph is acyclic, and then installs the slot. */
  lemma WalkStep(h: Heap, rank: map<ObjId, nat>, intoArrays: bool, o: ObjId, done: set<Key>, k: Key)
    requires Ranked(h, rank) && o in h && k in h[o].props
    ensures var hc := WalkedSoFar(h, rank, intoArrays, o, done);
      && Ranked(hc, rank) && o in hc && o in rank
      && ValueAt(hc, o, k) == ValueAt(h, o, k) && Depth(rank, ValueAt(h, o, k)) <= rank[o]
      && Install(Observed(hc, rank, intoArrays, ValueAt(h, o, k)), o, k, ValueAt(h, o, k))
         == WalkedSoFar(h, rank, intoArrays, o, done + {k})
  {
    var hc := WalkedSoFar(h, rank, intoArrays, o, done);
    var v := ValueAt(h, o, k);
    WalkedSoFarValues(h, rank, intoArrays, o, done);
    var lhs := Install(Observed(hc, rank, intoArrays, v), o, k, v);
    var rhs := WalkedSoFar(h, rank, intoArrays, o, done + {k});
    forall p | p in h
      ensures lhs[p] == rhs[p]
    {
      WalkStepAt(h, rank, intoArrays, o, done, k, p);
    }
  }

  lemma WalkStepAt(h: Heap, rank: map<ObjId, nat>, intoArrays: bool, o: ObjId, done: set<Key>, k: Key, p: ObjId)
    requires Ranked(h, rank) && o in h && k in h[o].props && p in h
    ensures var hc := WalkedSoFar(h, rank, intoArrays, o, done);
      && Ranked(hc, rank) && o in hc && o in rank
      && ValueAt(hc, o, k) == ValueAt(h, o, k) && Depth(rank, ValueAt(h, o, k)) <= rank[o]
      && Install(Observed(hc, rank, intoArrays, ValueAt(h, o, k)), o, k, ValueAt(h, o, k))[p]
         == WalkedSoFar(h, rank, intoArrays, o, done + {k})[p]
  {
    WalkedSoFarValues(h, rank, intoArrays, o, done);
    if p == o {
      WalkStepOwner(h, rank, intoArrays, o, done, k);
    } else {
      WalkStepOther(h, rank, intoArrays, o, done, k, p);
    }
  }

  lemma WalkStepOwner(h: Heap, rank: map<ObjId, nat>, intoArrays: bool, o: ObjId, done: set<Key>, k: Key)
    requires Ranked(h, rank) && o in h && k in h[o].props
    ensures var hc := WalkedSoFar(h, rank, intoArrays, o, done);
      && Ranked(hc, rank) && o in hc && o in rank
      && ValueAt(hc, o, k) == ValueAt(h, o, k) && Depth(rank, ValueAt(h, o, k)) <= rank[o]
      && Install(Observed(hc, rank, intoArrays, ValueAt(h, o, k)), o, k, ValueAt(h, o, k))[o]
         == PartialReset(h[o], done + {k})
  {
    var hc := WalkedSoFar(h, rank, intoArrays, o, done);
    var v := ValueAt(h, o, k);
    WalkedSoFarValues(h, rank, intoArrays, o, done);
    WalksSameValues(h, hc, rank, intoArrays, v, o);
    WalkAvoidsOwner(h, rank, intoArrays, o, k);
    var obs := Observed(hc, rank, intoArrays, v);
    assert obs[o] == hc[o] == PartialReset(h[o], done);
    assert Install(obs, o, k, v)[o].props == PartialReset(h[o], done + {k}).props;
  }

  lemma WalkStepOther(h: Heap, rank: map<ObjId, nat>, intoArrays: bool, o: ObjId, done: set<Key>, k: Key, p: ObjId)
    requires Ranked(h, rank) && o in h && k in h[o].props && p in h && p != o
    ensures var hc := WalkedSoFar(h, rank, intoArrays, o, done);
      && Ranked(hc, rank) && o in hc && o in rank
      && ValueAt(hc, o, k) == ValueAt(h, o, k) && Depth(rank, ValueAt(h, o, k)) <= rank[o]
      && Observed(hc, rank, intoArrays, ValueAt(h, o, k))[p]
         == WalkedSoFar(h, rank, intoArrays, o, done + {k})[p]
  {
    var hc := WalkedSoFar(h, rank, intoArrays, o, done);
    var v := ValueAt(h, o, k);
    WalkedSoFarValues(h, rank, intoArrays, o, done);
    WalksSameValues(h, hc, rank, intoArrays, v, p);
    var w := Walks(h, rank, intoArrays, v, p);
    var e1 := exists j :: j in done && j in h[o].props && Walks(h, rank, intoArrays, ValueAt(h, o, j), p);
    var e2 := exists j :: j in done + {k} && j in h[o].props && Walks(h, rank, intoArrays, ValueAt(h, o, j), p);
    assert e2 <==> e1 || w;
    assert hc[p] == if e1 then ResetObj(h[p]) else h[p];
    assert WalkedSoFar(h, rank, intoArrays, o, done + {k})[p] == if e2 then ResetObj(h[p]) else h[p];
    assert Observed(hc, rank, intoArrays, v)[p] == if w then ResetObj(hc[p]) else hc[p];
    ResetObjIdempotent(h[p]);
  }

  /** When every key is done, the loop has produced exactly `Observed` of the object. */
  lemma WalkDone(h: Heap, rank: map<ObjId, nat>, intoArrays: bool, o: ObjId)
    requires Ranked(h, rank) && o in h && (intoArrays || !h[o].isArray)
    ensures WalkedSoFar(h, rank, intoArrays, o, h[o].props.Keys) == Observed(h, rank, intoArrays, Ref(o))
  {
    assert PartialReset(h[o], h[o].props.Keys) == ResetObj(h[o]);
  }
}
