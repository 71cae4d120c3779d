/** kvue3/06-reactive.js: Proxy-based reactivity. `reactive` wraps a plain object in a Proxy whose
    get trap tracks (target, key) for the effect on top of `effectStack`, whose set trap triggers
    every effect subscribed to (target, key), and whose deleteProperty trap triggers nothing.
    Subscriptions live in `targetMap : target -> key -> Set<effect>`.

    An effect's function is user code; it is modelled by what it reads: a fixed list of property
    paths, each read through the Proxy of a root object (`obj.a.b`). Effects only read, so no
    trigger happens while an effect runs. */
module Reactive06 {
  import opened JsValues

  type EffectId = nat

  /** The raw objects behind the proxies: `Reflect.get`/`set`/`deleteProperty` act here. */
  type Raw = map<ObjId, map<Key, Value>>

  /** `targetMap`; each `Set<effect>` is a duplicate-free sequence in insertion order, the order
      in which `Set.prototype.forEach` visits it. */
  type TargetMap = map<ObjId, map<Key, seq<EffectId>>>

  /** What a read through a proxy hands back: a primitive, or a Proxy over a target. */
  datatype Wrapped = Prim(v: Value) | Proxy(target: ObjId)

  /** One read `root.k1.k2...` made by an effect function, starting from `reactive(root)`. */
  datatype Access = Access(root: ObjId, keys: seq<Key>)

  /** One run of an effect, with what each of its reads returned. */
  datatype Run = Run(effect: EffectId, seen: seq<Wrapped>)

  /** The value a wrapper stands for: a Proxy is transparent over its target. */
  function Unwrap(w: Wrapped): Value
  {
    match w
    case Prim(v) => v
    case Proxy(t) => Ref(t)
  }

  /** `reactive(obj)` (06-reactive.js:2-29): a non-object comes back as it is; an object gets a
      Proxy over itself. */
  function Reactive(v: Value): (r: Wrapped)
    ensures r.Prim? <==> !IsObject(v)
    ensures Unwrap(r) == v
  {
    if !IsObject(v) then Prim(v) else Proxy(v.id)
  }

  /** `Reflect.get(target, key)` on a plain object: a missing key reads as undefined. */
  function RawGet(raw: Raw, t: ObjId, k: Key): Value
    requires t in raw
  {
    if k in raw[t] then raw[t][k] else Undefined
  }

  /** The value the get trap returns (06-reactive.js:11,14): the value read when it is not an
      object, and otherwise `reactive(obj)` -- a Proxy over the OUTER target, not over the object
      that was read. */
  function GetResult(raw: Raw, t: ObjId, k: Key): (r: Wrapped)
    requires t in raw
    ensures r.Prim? <==> !IsObject(RawGet(raw, t, k))
    ensures r.Prim? ==> r.v == RawGet(raw, t, k)
    ensures r.Proxy? ==> r.target == t
  {
    var res := RawGet(raw, t, k);
    if !IsObject(res) then Prim(res) else Reactive(Ref(t))
  }

  /** The effects subscribed to (t, k); an absent inner map or set reads as empty. */
  function Deps(tm: TargetMap, t: ObjId, k: Key): seq<EffectId>
  {
    if t in tm && k in tm[t] then tm[t][k] else []
  }

  /** Every subscriber set is duplicate-free, as a JS `Set` is. */
  ghost predicate SetsOk(tm: TargetMap)
  {
    forall t, k :: NoDup(Deps(tm, t, k))
  }

  /** Every subscribed effect is one of `ids`. */
  ghost predicate EffectsIn(tm: TargetMap, ids: set<EffectId>)
  {
    forall t, k, i :: 0 <= i < |Deps(tm, t, k)| ==> Deps(tm, t, k)[i] in ids
  }

  /** The `if (effect)` branch of `track` (06-reactive.js:67-82): the inner map and the set are
      created on first use, and `deps.add(effect)` appends only an effect not yet there. */
  function Subscribe(tm: TargetMap, t: ObjId, k: Key, e: EffectId): (r: TargetMap)
    ensures Deps(r, t, k) == if e in Deps(tm, t, k) then Deps(tm, t, k) else Deps(tm, t, k) + [e]
    ensures r.Keys == tm.Keys + {t} && r[t].Keys == (if t in tm then tm[t].Keys else {}) + {k}
  {
    var depMap := if t in tm then tm[t] else map[];
    var deps := if k in depMap then depMap[k] else [];
    tm[t := depMap[k := if e in deps then deps else deps + [e]]]
  }

  /** `track` touches no other (target, key) set. */
  lemma SubscribeFrame(tm: TargetMap, t: ObjId, k: Key, e: EffectId)
    ensures forall t', k' :: t' != t || k' != k ==> Deps(Subscribe(tm, t, k, e), t', k') == Deps(tm, t', k')
  {
  }

  lemma SubscribeKeeps(tm: TargetMap, t: ObjId, k: Key, e: EffectId, ids: set<EffectId>)
    requires SetsOk(tm) && EffectsIn(tm, ids) && e in ids
    ensures SetsOk(Subscribe(tm, t, k, e)) && EffectsIn(Subscribe(tm, t, k, e), ids)
  {
    var r := Subscribe(tm, t, k, e);
    SubscribeFrame(tm, t, k, e);
    forall t', k' ensures NoDup(Deps(r, t', k')) {
      if t' == t && k' == k {
        assert NoDup(Deps(tm, t, k));
      }
    }
  }

  /** `track(target, key)` (06-reactive.js:63-84): the effect on top of the stack, if any, is
      subscribed. */
  function Tracked(tm: TargetMap, stack: seq<EffectId>, t: ObjId, k: Key): TargetMap
  {
    if stack == [] then tm else Subscribe(tm, t, k, stack[|stack| - 1])
  }

  /** With an empty stack `track` changes nothing; otherwise the top effect is in the (t, k) set
      afterwards, which gained at most that effect, and every other set is as it was. */
  lemma TrackSemantics(tm: TargetMap, stack: seq<EffectId>, t: ObjId, k: Key)
    ensures stack == [] ==> Tracked(tm, stack, t, k) == tm
    ensures stack != [] ==>
      && stack[|stack| - 1] in Deps(Tracked(tm, stack, t, k), t, k)
      && (forall e :: e in Deps(Tracked(tm, stack, t, k), t, k) ==> e in Deps(tm, t, k) || e == stack[|stack| - 1])
      && Deps(tm, t, k) <= Deps(Tracked(tm, stack, t, k), t, k)
    ensures forall t', k' :: t' != t || k' != k ==> Deps(Tracked(tm, stack, t, k), t', k') == Deps(tm, t', k')
  {
    if stack != [] {
      SubscribeFrame(tm, t, k, stack[|stack| - 1]);
    }
  }

  /** Tracking the same (target, key) twice in a row is the same as tracking it once. */
  lemma TrackIdempotent(tm: TargetMap, stack: seq<EffectId>, t: ObjId, k: Key)
    ensures Tracked(Tracked(tm, stack, t, k), stack, t, k) == Tracked(tm, stack, t, k)
  {
    if stack != [] {
      var r := Tracked(tm, stack, t, k);
      assert t in r && k in r[t] && stack[|stack| - 1] in r[t][k];
      assert r[t][k := r[t][k]] == r[t];
    }
  }

  /** Subscribing `e` to each pair of `ps` in turn. */
  function AddAll(tm: TargetMap, e: EffectId, ps: seq<(ObjId, Key)>): TargetMap
    decreases ps
  {
    if ps == [] then tm else AddAll(Subscribe(tm, ps[0].0, ps[0].1, e), e, ps[1..])
  }

  /** After subscribing `e` to the pairs of `ps`, each pair read holds `e` exactly once more if it
      did not before, and every pair not read keeps its set. */
  lemma {:induction false} AddAllEffect(tm: TargetMap, e: EffectId, ps: seq<(ObjId, Key)>, t: ObjId, k: Key)
    ensures Deps(AddAll(tm, e, ps), t, k)
         == if (t, k) in ps && e !in Deps(tm, t, k) then Deps(tm, t, k) + [e] else Deps(tm, t, k)
    decreases ps
  {
    if ps != [] {
      var tm1 := Subscribe(tm, ps[0].0, ps[0].1, e);
      SubscribeFrame(tm, ps[0].0, ps[0].1, e);
      AddAllEffect(tm1, e, ps[1..], t, k);
      assert (t, k) in ps <==> (t, k) == ps[0] || (t, k) in ps[1..];
    }
  }

  lemma {:induction false} AddAllKeeps(tm: TargetMap, e: EffectId, ps: seq<(ObjId, Key)>, ids: set<EffectId>)
    requires SetsOk(tm) && EffectsIn(tm, ids) && e in ids
    ensures SetsOk(AddAll(tm, e, ps)) && EffectsIn(AddAll(tm, e, ps), ids)
    decreases ps
  {
    if ps != [] {
      SubscribeKeeps(tm, ps[0].0, ps[0].1, e, ids);
      AddAllKeeps(Subscribe(tm, ps[0].0, ps[0].1, e), e, ps[1..], ids);
    }
  }

  lemma {:induction false} AddAllAppend(tm: TargetMap, e: EffectId, a: seq<(ObjId, Key)>, b: seq<(ObjId, Key)>)
    ensures AddAll(tm, e, a + b) == AddAll(AddAll(tm, e, a), e, b)
    decreases a
  {
    if a == [] {
      assert a + b == b;
    } else {
      assert (a + b)[1..] == a[1..] + b;
      AddAllAppend(Subscribe(tm, a[0].0, a[0].1, e), e, a[1..], b);
    }
  }

  /** What `track` does for every pair of `ps`, with the stack left as it is. */
  function TrackAll(tm: TargetMap, stack: seq<EffectId>, ps: seq<(ObjId, Key)>): TargetMap
  {
    if stack == [] then tm else AddAll(tm, stack[|stack| - 1], ps)
  }

  /** One `track` call followed by the rest of a path's calls. */
  lemma TrackAllStep(tm: TargetMap, stack: seq<EffectId>, t: ObjId, k: Key, ps: seq<(ObjId, Key)>)
    ensures TrackAll(Tracked(tm, stack, t, k), stack, ps) == TrackAll(tm, stack, [(t, k)] + ps)
  {
    assert ([(t, k)] + ps)[1..] == ps;
  }

  lemma TrackAllAppend(tm: TargetMap, stack: seq<EffectId>, a: seq<(ObjId, Key)>, b: seq<(ObjId, Key)>)
    ensures TrackAll(tm, stack, a + b) == TrackAll(TrackAll(tm, stack, a), stack, b)
  {
    if stack != [] {
      AddAllAppend(tm, stack[|stack| - 1], a, b);
    }
  }

  /** Reading the property path `keys` starting from `w`, through get traps: the (target, key)
      pairs tracked, in order, and the final result. Reading a property of a primitive yields
      undefined and tracks nothing. */
  function PathRead(raw: Raw, w: Wrapped, keys: seq<Key>): (r: (seq<(ObjId, Key)>, Wrapped))
    requires w.Proxy? ==> w.target in raw
    ensures |r.0| <= |keys|
    ensures forall i :: 0 <= i < |r.0| ==> r.0[i].1 == keys[i]
    decreases keys
  {
    if keys == [] then ([], w)
    else match w
      case Prim(_) => ([], Prim(Undefined))
      case Proxy(t) =>
        var rest := PathRead(raw, GetResult(raw, t, keys[0]), keys[1..]);
        ([(t, keys[0])] + rest.0, rest.1)
  }

  /** As written, a read through a proxy never leaves its outer target: every key of a path is
      looked up on the root object, however deep the path. */
  lemma {:induction false} PathStaysOnTarget(raw: Raw, t: ObjId, keys: seq<Key>)
    requires t in raw
    ensures forall i :: 0 <= i < |PathRead(raw, Proxy(t), keys).0| ==> PathRead(raw, Proxy(t), keys).0[i] == (t, keys[i])
    decreases keys
  {
    if keys != [] {
      var r := GetResult(raw, t, keys[0]);
      if r.Proxy? {
        PathStaysOnTarget(raw, t, keys[1..]);
      } else {
        assert PathRead(raw, r, keys[1..]).0 == [];
      }
    }
  }

  /** The nested object read of `obj.a.b` from the commented example at the end of the file:
      through the proxy it reads `obj.b`, undefined, instead of `obj.a.b`, which is 1. */
  lemma NestedReadMissesInner()
    ensures var raw: Raw := map[0 := map["a" := Ref(1)], 1 := map["b" := Num(1)]];
      var outerA: (ObjId, Key) := (0, "a");
      var outerB: (ObjId, Key) := (0, "b");
      var innerB: (ObjId, Key) := (1, "b");
      && PathRead(raw, Proxy(0), ["a", "b"]) == ([outerA, outerB], Prim(Undefined))
      && IntendedPathRead(raw, Proxy(0), ["a", "b"]) == ([outerA, innerB], Prim(Num(1)))
  {
    var raw: Raw := map[0 := map["a" := Ref(1)], 1 := map["b" := Num(1)]];
    var keys: seq<Key> := ["a", "b"];
    var last: seq<Key> := ["b"];
    assert keys[0] == "a" && keys[1..] == last && last[0] == "b" && last[1..] == [];
    var outerA: (ObjId, Key) := (0, "a");
    var outerB: (ObjId, Key) := (0, "b");
    var innerB: (ObjId, Key) := (1, "b");
    // as written: both keys are read on object 0
    var asWritten := PathRead(raw, Proxy(0), last);
    assert GetResult(raw, 0, "b") == Prim(Undefined);
    assert asWritten == ([outerB] + [], Prim(Undefined));
    assert GetResult(raw, 0, "a") == Proxy(0);
    assert PathRead(raw, Proxy(0), keys) == ([outerA] + asWritten.0, asWritten.1);
    assert [outerA] + asWritten.0 == [outerA, outerB];
    // intended: the second key is read on object 1
    assert RawClosed(raw);
    var intended := IntendedPathRead(raw, Proxy(1), last);
    assert IntendedGet(raw, 1, "b") == Prim(Num(1));
    assert intended == ([innerB] + [], Prim(Num(1)));
    assert IntendedGet(raw, 0, "a") == Proxy(1);
    assert IntendedPathRead(raw, Proxy(0), keys) == ([outerA] + intended.0, intended.1);
    assert [outerA] + intended.0 == [outerA, innerB];
  }

  /** Every object a raw object refers to is itself a raw object. */
  ghost predicate RawClosed(raw: Raw)
  {
    forall t, k :: t in raw && k in raw[t] && raw[t][k].Ref? ==> raw[t][k].id in raw
  }

  /** The get trap as evidently intended: `reactive(res)`, a Proxy over the object read. */
  function IntendedGet(raw: Raw, t: ObjId, k: Key): (r: Wrapped)
    requires t in raw && RawClosed(raw)
    ensures Unwrap(r) == RawGet(raw, t, k)
    ensures r.Proxy? ==> r.target in raw
  {
    Reactive(RawGet(raw, t, k))
  }

  /** `PathRead` with the intended get trap. */
  function IntendedPathRead(raw: Raw, w: Wrapped, keys: seq<Key>): (r: (seq<(ObjId, Key)>, Wrapped))
    requires RawClosed(raw) && (w.Proxy? ==> w.target in raw)
    ensures |r.0| <= |keys|
    decreases keys
  {
    if keys == [] then ([], w)
    else match w
      case Prim(_) => ([], Prim(Undefined))
      case Proxy(t) =>
        var rest := IntendedPathRead(raw, IntendedGet(raw, t, keys[0]), keys[1..]);
        ([(t, keys[0])] + rest.0, rest.1)
  }

  /** The plain nested lookup `obj.k1.k2...` on the raw objects. */
  function RawPath(raw: Raw, v: Value, keys: seq<Key>): Value
    requires RawClosed(raw) && (v.Ref? ==> v.id in raw)
    decreases keys
  {
    if keys == [] then v
    else if !v.Ref? then Undefined
    else RawPath(raw, RawGet(raw, v.id, keys[0]), keys[1..])
  }

  /** One key further down a raw path. */
  lemma RawPathStep(raw: Raw, v: Value, keys: seq<Key>, i: nat)
    requires RawClosed(raw) && (v.Ref? ==> v.id in raw)
    requires 0 < i <= |keys|
    ensures !v.Ref? ==> RawPath(raw, v, keys[..i]) == Undefined
    ensures v.Ref? ==> RawPath(raw, v, keys[..i]) == RawPath(raw, RawGet(raw, v.id, keys[0]), keys[1..][..i - 1])
  {
    assert keys[..i][0] == keys[0] && keys[..i][1..] == keys[1..][..i - 1];
  }

  /** The i-th key of a path read with the intended get trap is tracked exactly when the first
      i keys lead to an object, and then it is tracked on that object. */
  lemma {:induction false} IntendedTrackedAt(raw: Raw, v: Value, keys: seq<Key>, i: nat)
    requires RawClosed(raw) && (v.Ref? ==> v.id in raw) && i < |keys|
    ensures var tracked := IntendedPathRead(raw, Reactive(v), keys).0;
      && (i < |tracked| <==> RawPath(raw, v, keys[..i]).Ref?)
      && (i < |tracked| ==> tracked[i] == (RawPath(raw, v, keys[..i]).id, keys[i]))
    decreases i
  {
    var tracked := IntendedPathRead(raw, Reactive(v), keys).0;
    if i == 0 {
      assert keys[..0] == [];
    } else {
      RawPathStep(raw, v, keys, i);
      if v.Ref? {
        var next := RawGet(raw, v.id, keys[0]);
        assert IntendedGet(raw, v.id, keys[0]) == Reactive(next);
        IntendedTrackedAt(raw, next, keys[1..], i - 1);
        assert tracked == [(v.id, keys[0])] + IntendedPathRead(raw, Reactive(next), keys[1..]).0;
      }
    }
  }

  /** With the intended get trap, a read through a proxy returns what the same read returns on
      the raw objects, and the i-th pair it tracks is the object the first i keys lead to, with
      the i-th key: one pair for every object along the path, and no other. */
  lemma {:induction false} IntendedPathReadsNested(raw: Raw, v: Value, keys: seq<Key>)
    requires RawClosed(raw) && (v.Ref? ==> v.id in raw)
    ensures Unwrap(IntendedPathRead(raw, Reactive(v), keys).1) == RawPath(raw, v, keys)
    ensures var tracked := IntendedPathRead(raw, Reactive(v), keys).0;
      forall i :: 0 <= i < |tracked| ==>
        i < |keys| && RawPath(raw, v, keys[..i]).Ref? && tracked[i] == (RawPath(raw, v, keys[..i]).id, keys[i])
    ensures forall i :: 0 <= i < |keys| && RawPath(raw, v, keys[..i]).Ref? ==> i < |IntendedPathRead(raw, Reactive(v), keys).0|
    decreases keys
  {
    if keys != [] && v.Ref? {
      var next := RawGet(raw, v.id, keys[0]);
      assert IntendedGet(raw, v.id, keys[0]) == Reactive(next);
      IntendedPathReadsNested(raw, next, keys[1..]);
    }
    forall i | 0 <= i < |keys|
      ensures var tracked := IntendedPathRead(raw, Reactive(v), keys).0;
        && (i < |tracked| <==> RawPath(raw, v, keys[..i]).Ref?)
        && (i < |tracked| ==> tracked[i] == (RawPath(raw, v, keys[..i]).id, keys[i]))
    {
      IntendedTrackedAt(raw, v, keys, i);
    }
  }

  /** Each access of a body may be run against `raw`. */
  ghost predicate BodyOk(raw: Raw, body: seq<Access>)
  {
    forall i :: 0 <= i < |body| ==> body[i].root in raw
  }

  /** Running an effect function: the pairs it tracks, in order, and what each access read. */
  function BodyRun(raw: Raw, body: seq<Access>): (r: (seq<(ObjId, Key)>, seq<Wrapped>))
    requires BodyOk(raw, body)
    ensures |r.1| == |body|
    decreases body
  {
    if body == [] then ([], [])
    else
      var first := PathRead(raw, Proxy(body[0].root), body[0].keys);
      var rest := BodyRun(raw, body[1..]);
      (first.0 + rest.0, [first.1] + rest.1)
  }

  /** Every effect function may be run against `raw`. */
  ghost predicate BodiesOk(raw: Raw, bodies: map<EffectId, seq<Access>>)
  {
    forall e :: e in bodies ==> BodyOk(raw, bodies[e])
  }

  /** Every effect of `deps` exists and may be run against `raw`. */
  ghost predicate Runnable(raw: Raw, bodies: map<EffectId, seq<Access>>, deps: seq<EffectId>)
  {
    BodiesOk(raw, bodies) && forall i :: 0 <= i < |deps| ==> deps[i] in bodies
  }

  /** `deps.forEach(dep => dep())` (06-reactive.js:95-97): each effect is run in order, and each
      run subscribes that effect to what it reads. */
  function TriggerRun(tm: TargetMap, raw: Raw, bodies: map<EffectId, seq<Access>>, deps: seq<EffectId>): (r: (TargetMap, seq<Run>))
    requires Runnable(raw, bodies, deps)
    ensures |r.1| == |deps|
    decreases deps
  {
    if deps == [] then (tm, [])
    else
      var body := bodies[deps[0]];
      var rest := TriggerRun(AddAll(tm, deps[0], BodyRun(raw, body).0), raw, bodies, deps[1..]);
      (rest.0, [Run(deps[0], BodyRun(raw, body).1)] + rest.1)
  }

  /** One effect of a trigger run, then the effects after it. */
  lemma TriggerRunStep(tm: TargetMap, raw: Raw, bodies: map<EffectId, seq<Access>>, deps: seq<EffectId>, i: nat, log: seq<Run>)
    requires Runnable(raw, bodies, deps) && i < |deps|
    ensures Runnable(raw, bodies, deps[i..]) && Runnable(raw, bodies, deps[i + 1..])
    ensures var first := AddAll(tm, deps[i], BodyRun(raw, bodies[deps[i]]).0);
      && TriggerRun(first, raw, bodies, deps[i + 1..]).0 == TriggerRun(tm, raw, bodies, deps[i..]).0
      && (log + [Run(deps[i], BodyRun(raw, bodies[deps[i]]).1)]) + TriggerRun(first, raw, bodies, deps[i + 1..]).1
         == log + TriggerRun(tm, raw, bodies, deps[i..]).1
  {
    assert deps[i..][1..] == deps[i + 1..];
  }

  /** Every effect run by a trigger runs once, in set order, and reads the objects as they are. */
  lemma {:induction false} TriggerRunsEach(tm: TargetMap, raw: Raw, bodies: map<EffectId, seq<Access>>, deps: seq<EffectId>, i: nat)
    requires Runnable(raw, bodies, deps) && i < |deps|
    ensures TriggerRun(tm, raw, bodies, deps).1[i] == Run(deps[i], BodyRun(raw, bodies[deps[i]]).1)
    decreases deps
  {
    if i > 0 {
      TriggerRunsEach(AddAll(tm, deps[0], BodyRun(raw, bodies[deps[0]]).0), raw, bodies, deps[1..], i - 1);
    }
  }

  /** The set being iterated does not change while its effects run: each of them is already in
      it, so their own `track` calls on (t, k) add nothing. Iterating the live `Set` is therefore
      the same as iterating the sequence it held when `trigger` began. */
  lemma {:induction false} TriggerKeepsSet(tm: TargetMap, raw: Raw, bodies: map<EffectId, seq<Access>>, deps: seq<EffectId>, t: ObjId, k: Key)
    requires Runnable(raw, bodies, deps)
    requires forall i :: 0 <= i < |deps| ==> deps[i] in Deps(tm, t, k)
    ensures Deps(TriggerRun(tm, raw, bodies, deps).0, t, k) == Deps(tm, t, k)
    decreases deps
  {
    if deps != [] {
      var tm1 := AddAll(tm, deps[0], BodyRun(raw, bodies[deps[0]]).0);
      AddAllEffect(tm, deps[0], BodyRun(raw, bodies[deps[0]]).0, t, k);
      TriggerKeepsSet(tm1, raw, bodies, deps[1..], t, k);
    }
  }

  lemma {:induction false} TriggerRunKeeps(tm: TargetMap, raw: Raw, bodies: map<EffectId, seq<Access>>, deps: seq<EffectId>)
    requires Runnable(raw, bodies, deps) && SetsOk(tm) && EffectsIn(tm, bodies.Keys)
    ensures SetsOk(TriggerRun(tm, raw, bodies, deps).0) && EffectsIn(TriggerRun(tm, raw, bodies, deps).0, bodies.Keys)
    decreases deps
  {
    if deps != [] {
      AddAllKeeps(tm, deps[0], BodyRun(raw, bodies[deps[0]]).0, bodies.Keys);
      TriggerRunKeeps(AddAll(tm, deps[0], BodyRun(raw, bodies[deps[0]]).0), raw, bodies, deps[1..]);
    }
  }

  /** The set trap triggers before it writes, so an effect reading the written key sees the value
      it is being replaced. Here effect 0 reads `obj.foo` while `obj.foo = "b"` replaces "a". */
  lemma TriggeredEffectSeesOldValue()
    ensures var raw: Raw := map[0 := map["foo" := Str("a")]];
      var bodies := map[0 := [Access(0, ["foo"])]];
      && TriggerRun(map[], raw, bodies, [0]).1 == [Run(0, [Prim(Str("a"))])]
      && RawGet(raw[0 := raw[0]["foo" := Str("b")]], 0, "foo") == Str("b")
  {
    var raw: Raw := map[0 := map["foo" := Str("a")]];
    var bodies := map[0 := [Access(0, ["foo"])]];
    assert BodyRun(raw, bodies[0]).1 == [Prim(Str("a"))] by {
      assert ["foo"][1..] == [];
      assert bodies[0][1..] == [];
    }
  }

  /** The module-level state of 06-reactive.js: the raw objects, `targetMap`, `effectStack`, the
      effect functions created so far, and a log of effect runs. */
  class Reactivity {
    var raw: Raw
    var targetMap: TargetMap
    var effectStack: seq<EffectId>
    var bodies: map<EffectId, seq<Access>>   // what each effect's `fn` reads
    var nextEffect: EffectId
    var log: seq<Run>

    ghost predicate Valid()
      reads this
    {
      && (forall e :: e in bodies ==> e < nextEffect) && BodiesOk(raw, bodies)
      && SetsOk(targetMap) && EffectsIn(targetMap, bodies.Keys)
      && (forall i :: 0 <= i < |effectStack| ==> effectStack[i] in bodies)
    }

    /** The module being loaded: empty `effectStack` and `targetMap`, over the given objects. */
    constructor (raw: Raw)
      ensures Valid() && this.raw == raw && targetMap == map[] && effectStack == [] && bodies == map[] && log == []
    {
      this.raw := raw;
      targetMap := map[];
      effectStack := [];
      bodies := map[];
      nextEffect := 0;
      log := [];
    }

    /** `track(target, key)` (06-reactive.js:63-84), step by step. */
    method Track(t: ObjId, k: Key)
      requires Valid()
      modifies this`targetMap
      ensures Valid() && targetMap == Tracked(old(targetMap), effectStack, t, k)
    {
      if effectStack != [] {
        var effect := effectStack[|effectStack| - 1];
        SubscribeKeeps(targetMap, t, k, effect, bodies.Keys);
        ghost var tm0 := targetMap;
        if t !in targetMap {
          targetMap := targetMap[t := map[]];
        }
        var depMap := targetMap[t];
        if k !in depMap {
          depMap := depMap[k := []];
        }
        var deps := depMap[k];
        if effect !in deps {
          deps := deps + [effect];
        }
        ghost var depMap0 := if t in tm0 then tm0[t] else map[];
        assert depMap[k := deps] == depMap0[k := deps];
        targetMap := targetMap[t := depMap[k := deps]];
        assert targetMap == tm0[t := depMap[k := deps]];
      }
    }

    /** The get trap (06-reactive.js:9-15). */
    method GetTrap(t: ObjId, k: Key) returns (r: Wrapped)
      requires Valid() && t in raw
      modifies this`targetMap
      ensures Valid() && r == GetResult(raw, t, k)
      ensures targetMap == Tracked(old(targetMap), effectStack, t, k)
    {
      var res := if k in raw[t] then raw[t][k] else Undefined;
      Track(t, k);
      r := if !IsObject(res) then Prim(res) else Reactive(Ref(t));
    }

    /** An effect function evaluating the expression `w.k1.k2...`. */
    method ReadPath(w: Wrapped, keys: seq<Key>) returns (r: Wrapped)
      requires Valid() && (w.Proxy? ==> w.target in raw)
      modifies this`targetMap
      ensures Valid() && r == PathRead(raw, w, keys).1
      ensures targetMap == TrackAll(old(targetMap), effectStack, PathRead(raw, w, keys).0)
      decreases keys
    {
      if keys == [] {
        r := w;
      } else if w.Proxy? {
        TrackAllStep(targetMap, effectStack, w.target, keys[0], PathRead(raw, GetResult(raw, w.target, keys[0]), keys[1..]).0);
        var next := GetTrap(w.target, keys[0]);
        r := ReadPath(next, keys[1..]);
      } else {
        r := Prim(Undefined);
      }
    }

    /** The function `createReactiveEffect` returns (06-reactive.js:44-54): push itself, run
        `fn`, pop in `finally`. */
    method RunEffect(e: EffectId)
      requires Valid() && e in bodies
      modifies this`targetMap, this`effectStack, this`log
      ensures Valid() && effectStack == old(effectStack)
      ensures targetMap == AddAll(old(targetMap), e, BodyRun(raw, bodies[e]).0)
      ensures log == old(log) + [Run(e, BodyRun(raw, bodies[e]).1)]
    {
      effectStack := effectStack + [e];
      var seen := RunBody(bodies[e]);
      effectStack := effectStack[..|effectStack| - 1];
      log := log + [Run(e, seen)];
    }

    /** Running the statements of an effect function in order, each reading one path. */
    method RunBody(body: seq<Access>) returns (seen: seq<Wrapped>)
      requires Valid() && BodyOk(raw, body)
      modifies this`targetMap
      ensures Valid() && seen == BodyRun(raw, body).1
      ensures targetMap == TrackAll(old(targetMap), effectStack, BodyRun(raw, body).0)
      decreases body
    {
      if body == [] {
        seen := [];
      } else {
        ghost var tm0 := targetMap;
        ghost var first := PathRead(raw, Proxy(body[0].root), body[0].keys);
        var v := ReadPath(Proxy(body[0].root), body[0].keys);
        var rest := RunBody(body[1..]);
        TrackAllAppend(tm0, effectStack, first.0, BodyRun(raw, body[1..]).0);
        seen := [v] + rest;
      }
    }

    /** `createReactiveEffect(fn)` (06-reactive.js:43-56): a new effect, not yet run. */
    method CreateReactiveEffect(body: seq<Access>) returns (e: EffectId)
      requires Valid() && BodyOk(raw, body)
      modifies this`bodies, this`nextEffect
      ensures Valid() && e !in old(bodies) && bodies == old(bodies)[e := body]
    {
      e := nextEffect;
      nextEffect := nextEffect + 1;
      bodies := bodies[e := body];
    }

    /** `effect(fn)` (06-reactive.js:35-41): create the effect, run it once, return it. */
    method Effect(body: seq<Access>) returns (e: EffectId)
      requires Valid() && BodyOk(raw, body)
      modifies this`bodies, this`nextEffect, this`targetMap, this`effectStack, this`log
      ensures Valid() && e !in old(bodies) && bodies == old(bodies)[e := body]
      ensures effectStack == old(effectStack)
      ensures targetMap == AddAll(old(targetMap), e, BodyRun(raw, body).0)
      ensures log == old(log) + [Run(e, BodyRun(raw, body).1)]
    {
      e := CreateReactiveEffect(body);
      RunEffect(e);
    }

    /** `trigger(target, key)` (06-reactive.js:87-98). */
    method Trigger(t: ObjId, k: Key)
      requires Valid()
      modifies this`targetMap, this`effectStack, this`log
      ensures Valid() && effectStack == old(effectStack)
      ensures Deps(targetMap, t, k) == old(Deps(targetMap, t, k))
      ensures targetMap == TriggerRun(old(targetMap), raw, bodies, old(Deps(targetMap, t, k))).0
      ensures log == old(log) + TriggerRun(old(targetMap), raw, bodies, old(Deps(targetMap, t, k))).1
    {
      if t !in targetMap {
        return;
      }
      var depMap := targetMap[t];
      if k !in depMap {
        return;
      }
      var deps := depMap[k];
      assert deps == Deps(targetMap, t, k);
      TriggerKeepsSet(targetMap, raw, bodies, deps, t, k);
      RunAll(deps);
    }

    /** `deps.forEach(dep => dep())` (06-reactive.js:96). */
    method RunAll(deps: seq<EffectId>)
      requires Valid() && Runnable(raw, bodies, deps)
      modifies this`targetMap, this`effectStack, this`log
      ensures Valid() && effectStack == old(effectStack)
      ensures targetMap == TriggerRun(old(targetMap), raw, bodies, deps).0
      ensures log == old(log) + TriggerRun(old(targetMap), raw, bodies, deps).1
    {
      ghost var goal := TriggerRun(targetMap, raw, bodies, deps);
      var i := 0;
      while i < |deps|
        invariant 0 <= i <= |deps| && Valid() && effectStack == old(effectStack)
        invariant Runnable(raw, bodies, deps[i..])
        invariant TriggerRun(targetMap, raw, bodies, deps[i..]).0 == goal.0
        invariant log + TriggerRun(targetMap, raw, bodies, deps[i..]).1 == old(log) + goal.1
      {
        TriggerRunStep(targetMap, raw, bodies, deps, i, log);
        RunEffect(deps[i]);
        i := i + 1;
      }
      assert deps[i..] == [];
    }

    /** The set trap (06-reactive.js:17-22): trigger first, with no equality check, then
        `Reflect.set`, whose result (true on a plain object) is returned. */
    method SetTrap(t: ObjId, k: Key, val: Value) returns (ok: bool)
      requires Valid() && t in raw
      modifies this`raw, this`targetMap, this`effectStack, this`log
      ensures Valid() && ok && effectStack == old(effectStack)
      ensures raw == old(raw)[t := old(raw)[t][k := val]]
      ensures targetMap == TriggerRun(old(targetMap), old(raw), bodies, old(Deps(targetMap, t, k))).0
      ensures log == old(log) + TriggerRun(old(targetMap), old(raw), bodies, old(Deps(targetMap, t, k))).1
    {
      Trigger(t, k);
      raw := raw[t := raw[t][k := val]];
      ok := true;
    }

    /** The deleteProperty trap (06-reactive.js:24-27): `Reflect.deleteProperty` only; nothing is
        triggered and no subscription is dropped. */
    method DeleteTrap(t: ObjId, k: Key) returns (ok: bool)
      requires Valid() && t in raw
      modifies this`raw
      ensures Valid() && ok && raw == old(raw)[t := old(raw)[t] - {k}]
    {
      raw := raw[t := raw[t] - {k}];
      ok := true;
    }
  }
}
