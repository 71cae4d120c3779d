/** kvue3/06-reactive-clone.js: a second copy of 06-reactive.js. Its functions are written out
    here from the copy's own text, and each is proved to agree with the `Reactive06` definition on
    every input; the statements of `effect`, `createReactiveEffect` and the set and
    deleteProperty traps are the same in both files, so `Reactive06.Reactivity` models both. */
module Reactive06Clone {
  import opened JsValues
  import R = Reactive06

  /** `reactive(obj)` (06-reactive-clone.js:2-22). */
  function Reactive(v: Value): (r: R.Wrapped)
    ensures r.Prim? <==> !IsObject(v)
    ensures R.Unwrap(r) == v
  {
    if !IsObject(v) then R.Prim(v) else R.Proxy(v.id)
  }

  /** The result of the get trap (06-reactive-clone.js:9-13): `Reflect.get`, then the value or
      `reactive(obj)` of the outer target. */
  function GetTrapResult(raw: R.Raw, t: ObjId, k: Key): (r: R.Wrapped)
    requires t in raw
    ensures r.Prim? ==> r.v == R.RawGet(raw, t, k) && !IsObject(r.v)
    ensures r.Proxy? ==> r.target == t && IsObject(R.RawGet(raw, t, k))
  {
    var res := if k in raw[t] then raw[t][k] else Undefined;
    if !IsObject(res) then R.Prim(res) else Reactive(Ref(t))
  }

  /** `track(target, key)` (06-reactive-clone.js:52-69), statement by statement: the inner map
      is stored in `targetMap` as soon as it is created, and the new set in the inner map. */
  function Track(tm: R.TargetMap, stack: seq<R.EffectId>, t: ObjId, k: Key): (r: R.TargetMap)
    ensures stack == [] ==> r == tm
    ensures stack != [] ==> t in r && k in r[t] && stack[|stack| - 1] in r[t][k]
  {
    if stack == [] then tm
    else
      var effect := stack[|stack| - 1];
      var tm1 := if t in tm then tm else tm[t := map[]];
      var depMap := tm1[t];
      var depMap1 := if k in depMap then depMap else depMap[k := []];
      var tm2 := tm1[t := depMap1];
      var deps := depMap1[k];
      tm2[t := depMap1[k := if effect in deps then deps else deps + [effect]]]
  }

  /** The effects `trigger(target, key)` (06-reactive-clone.js:72-82) runs, in order: none for an
      unknown target or key. */
  function TriggerDeps(tm: R.TargetMap, t: ObjId, k: Key): (r: seq<R.EffectId>)
    ensures t !in tm || k !in tm[t] ==> r == []
    ensures t in tm && k in tm[t] ==> r == tm[t][k]
  {
    if t !in tm then []
    else
      var depMap := tm[t];
      if k in depMap then depMap[k] else []
  }

  lemma ReactiveAgrees(v: Value)
    ensures Reactive(v) == R.Reactive(v)
  {
  }

  lemma GetTrapAgrees(raw: R.Raw, t: ObjId, k: Key)
    requires t in raw
    ensures GetTrapResult(raw, t, k) == R.GetResult(raw, t, k)
  {
  }

  /** The copy's `track` builds the same `targetMap` as the original's. */
  lemma TrackAgrees(tm: R.TargetMap, stack: seq<R.EffectId>, t: ObjId, k: Key)
    ensures Track(tm, stack, t, k) == R.Tracked(tm, stack, t, k)
  {
    if stack != [] {
      var effect := stack[|stack| - 1];
      var tm1: R.TargetMap := if t in tm then tm else tm[t := map[]];
      var depMap: map<Key, seq<R.EffectId>> := tm1[t];
      var depMap1: map<Key, seq<R.EffectId>> := if k in depMap then depMap else depMap[k := []];
      var deps := depMap1[k];
      var added := if effect in deps then deps else deps + [effect];
      var depMap0: map<Key, seq<R.EffectId>> := if t in tm then tm[t] else map[];
      assert depMap1[k := added] == depMap0[k := added];
      assert tm1[t := depMap1][t := depMap1[k := added]] == tm[t := depMap0[k := added]];
    }
  }

  lemma TriggerAgrees(tm: R.TargetMap, t: ObjId, k: Key)
    ensures TriggerDeps(tm, t, k) == R.Deps(tm, t, k)
  {
  }
}
